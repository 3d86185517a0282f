/**
 * Catalog inventory: SKU counters and reservation rows.
 * A row's id is its position; rows are never deleted. SQL guards and the schema's CHECK,
 * UNIQUE and FOREIGN KEY constraints appear as the error cases of each operation.
 */
module Inventory {
  import opened Common

  datatype SkuRow = SkuRow(stock: int, reserved: int, deleted: bool)

  datatype ReservationStatus = Reserved | Released | Confirmed

  datatype Reservation = Reservation(order: nat, sku: nat, qty: int, status: ReservationStatus)

  datatype Line = Line(sku: nat, qty: int)

  datatype Stock = Stock(skus: map<nat, SkuRow>, rows: seq<Reservation>)

  datatype InventoryError = InsufficientStock | ConstraintViolation | ReservationNotFound | SkuNotFound | DatabaseError

  // ── What the counters must add up to ────────────────────────

  /** Quantity a row holds back from `sku`. */
  function Held(r: Reservation, sku: nat): int {
    if r.sku == sku && r.status == Reserved then r.qty else 0
  }

  function SumHeld(rows: seq<Reservation>, sku: nat): int {
    if rows == [] then 0 else SumHeld(rows[..|rows| - 1], sku) + Held(rows[|rows| - 1], sku)
  }

  /** The part of `SumHeld` that belongs to one order. */
  function SumHeldBy(rows: seq<Reservation>, order: nat, sku: nat): int {
    if rows == [] then 0
    else
      var last := rows[|rows| - 1];
      SumHeldBy(rows[..|rows| - 1], order, sku) + if last.order == order then Held(last, sku) else 0
  }

  /** Stock conservation: each live SKU's counter is the sum of its reserved rows. */
  ghost predicate Conserved(st: Stock) {
    && (forall s | s in st.skus :: st.skus[s].stock >= 0 && st.skus[s].reserved >= 0)
    && (forall s | s in st.skus :: !st.skus[s].deleted ==> st.skus[s].reserved == SumHeld(st.rows, s))
    && (forall i :: 0 <= i < |st.rows| ==> st.rows[i].qty > 0 && st.rows[i].sku in st.skus)
  }

  /** No live SKU has promised more than it has. */
  ghost predicate NotOversold(st: Stock) {
    forall s | s in st.skus :: !st.skus[s].deleted ==> st.skus[s].reserved <= st.skus[s].stock
  }

  /** The schema's UNIQUE (order_id, sku_id). */
  predicate UniqueRows(rows: seq<Reservation>) {
    forall i, j :: 0 <= i < j < |rows| ==> rows[i].order != rows[j].order || rows[i].sku != rows[j].sku
  }

  // ── Operations ──────────────────────────────────────────────

  predicate HasRow(rows: seq<Reservation>, order: nat, sku: nat) {
    exists i :: 0 <= i < |rows| && rows[i].order == order && rows[i].sku == sku
  }

  function Reserve(st: Stock, order: nat, line: Line): Result<Stock, InventoryError> {
    if line.sku !in st.skus || st.skus[line.sku].deleted
       || st.skus[line.sku].stock - st.skus[line.sku].reserved < line.qty then
      Err(InsufficientStock)
    else if line.qty <= 0 || HasRow(st.rows, order, line.sku) then
      Err(ConstraintViolation)
    else
      var row := st.skus[line.sku];
      Ok(Stock(st.skus[line.sku := row.(reserved := row.reserved + line.qty)],
               st.rows + [Reservation(order, line.sku, line.qty, Reserved)]))
  }

  /** Reserving every line in turn; the first failure aborts the transaction. */
  function ReserveAll(st: Stock, order: nat, lines: seq<Line>): Result<Stock, InventoryError> {
    if lines == [] then Ok(st)
    else
      match ReserveAll(st, order, lines[..|lines| - 1])
      case Err(e) => Err(e)
      case Ok(st1) => Reserve(st1, order, lines[|lines| - 1])
  }

  predicate Matches(r: Reservation, order: nat, sku: nat) {
    r.order == order && r.sku == sku && r.status == Reserved
  }

  /** Release the reserved row at position `k`. */
  function ReleaseAt(st: Stock, k: nat): Stock
    requires k < |st.rows| && st.rows[k].sku in st.skus
  {
    var r := st.rows[k];
    var row := st.skus[r.sku];
    Stock(if row.deleted then st.skus else st.skus[r.sku := row.(reserved := row.reserved - r.qty)],
          st.rows[k := r.(status := Released)])
  }

  /** Confirm the reserved row at position `k`; the CHECK on stock may refuse. */
  function ConfirmAt(st: Stock, k: nat): Result<Stock, InventoryError>
    requires k < |st.rows| && st.rows[k].sku in st.skus
  {
    var r := st.rows[k];
    var row := st.skus[r.sku];
    if !row.deleted && (row.stock < r.qty || row.reserved < r.qty) then Err(ConstraintViolation)
    else
      Ok(Stock(if row.deleted then st.skus
               else st.skus[r.sku := row.(stock := row.stock - r.qty, reserved := row.reserved - r.qty)],
               st.rows[k := r.(status := Confirmed)]))
  }

  /** What cancelling an order should do to inventory, said all at once. */
  function ReleaseAll(st: Stock, order: nat): Stock {
    Stock(map s | s in st.skus ::
            if st.skus[s].deleted then st.skus[s]
            else st.skus[s].(reserved := st.skus[s].reserved - SumHeldBy(st.rows, order, s)),
          seq(|st.rows|, i requires 0 <= i < |st.rows| =>
            if st.rows[i].order == order && st.rows[i].status == Reserved
            then st.rows[i].(status := Released) else st.rows[i]))
  }

  /** Admin edits of the SKU table. */
  datatype AdminEdit =
    | AddSku(sku: nat, initial: nat)
    | SetStock(sku: nat, value: nat)
    | AdjustStock(sku: nat, delta: int)
    | DeleteSku(sku: nat)

  function Edit(st: Stock, e: AdminEdit): Result<Stock, InventoryError> {
    match e
    case AddSku(s, initial) =>
      if s in st.skus then Err(ConstraintViolation)
      else Ok(st.(skus := st.skus[s := SkuRow(initial, 0, false)]))
    case SetStock(s, value) =>
      if s !in st.skus || st.skus[s].deleted then Err(SkuNotFound)
      else Ok(st.(skus := st.skus[s := st.skus[s].(stock := value)]))
    case AdjustStock(s, delta) =>
      if s !in st.skus || st.skus[s].deleted || st.skus[s].stock + delta < 0 then Err(SkuNotFound)
      else Ok(st.(skus := st.skus[s := st.skus[s].(stock := st.skus[s].stock + delta)]))
    case DeleteSku(s) =>
      if s !in st.skus || st.skus[s].deleted then Err(SkuNotFound)
      else Ok(st.(skus := st.skus[s := st.skus[s].(deleted := true)]))
  }

  /** An edit that takes stock away from a live SKU. */
  predicate LowersStock(st: Stock, e: AdminEdit) {
    match e
    case SetStock(s, value) => s in st.skus && value < st.skus[s].stock
    case AdjustStock(s, delta) => delta < 0
    case _ => false
  }

  // ── Sums under append and update ────────────────────────────

  lemma SumHeldAppend(rows: seq<Reservation>, r: Reservation, sku: nat)
    ensures SumHeld(rows + [r], sku) == SumHeld(rows, sku) + Held(r, sku)
  {
    assert (rows + [r])[..|rows|] == rows;
  }

  lemma {:induction false} SumHeldUpdate(rows: seq<Reservation>, k: nat, r: Reservation, sku: nat)
    requires k < |rows|
    ensures SumHeld(rows[k := r], sku) == SumHeld(rows, sku) - Held(rows[k], sku) + Held(r, sku)
  {
    var n := |rows| - 1;
    if k == n {
      assert rows[k := r][..n] == rows[..n];
    } else {
      assert rows[k := r][..n] == rows[..n][k := r];
      SumHeldUpdate(rows[..n], k, r, sku);
    }
  }

  lemma {:induction false} SumHeldByUpdate(rows: seq<Reservation>, k: nat, r: Reservation, order: nat, sku: nat)
    requires k < |rows| && r.order == rows[k].order
    ensures SumHeldBy(rows[k := r], order, sku)
         == SumHeldBy(rows, order, sku) + if r.order == order then Held(r, sku) - Held(rows[k], sku) else 0
  {
    var n := |rows| - 1;
    if k == n {
      assert rows[k := r][..n] == rows[..n];
    } else {
      assert rows[k := r][..n] == rows[..n][k := r];
      SumHeldByUpdate(rows[..n], k, r, order, sku);
    }
  }

  lemma {:induction false} SumHeldBounds(rows: seq<Reservation>, order: nat, sku: nat)
    requires forall i :: 0 <= i < |rows| ==> rows[i].qty > 0
    ensures 0 <= SumHeldBy(rows, order, sku) <= SumHeld(rows, sku)
  {
    if rows != [] {
      SumHeldBounds(rows[..|rows| - 1], order, sku);
    }
  }

  /** A reserved row's quantity is part of its order's share. */
  lemma {:induction false} HeldIsCounted(rows: seq<Reservation>, k: nat, sku: nat)
    requires forall i :: 0 <= i < |rows| ==> rows[i].qty > 0
    requires k < |rows|
    ensures Held(rows[k], sku) <= SumHeldBy(rows, rows[k].order, sku)
  {
    var n := |rows| - 1;
    SumHeldBounds(rows[..n], rows[k].order, sku);
    if k < n {
      HeldIsCounted(rows[..n], k, sku);
    }
  }

  // ── Conservation ────────────────────────────────────────────

  lemma ReserveConserves(st: Stock, order: nat, line: Line)
    requires Conserved(st) && Reserve(st, order, line).Ok?
    ensures Conserved(Reserve(st, order, line).value)
  {
    var st' := Reserve(st, order, line).value;
    forall s | s in st'.skus ensures !st'.skus[s].deleted ==> st'.skus[s].reserved == SumHeld(st'.rows, s) {
      SumHeldAppend(st.rows, Reservation(order, line.sku, line.qty, Reserved), s);
    }
  }

  lemma {:induction false} ReserveAllConserves(st: Stock, order: nat, lines: seq<Line>)
    requires Conserved(st) && ReserveAll(st, order, lines).Ok?
    ensures Conserved(ReserveAll(st, order, lines).value)
    ensures NotOversold(st) ==> NotOversold(ReserveAll(st, order, lines).value)
    ensures UniqueRows(st.rows) ==> UniqueRows(ReserveAll(st, order, lines).value.rows)
  {
    if lines != [] {
      var front := lines[..|lines| - 1];
      ReserveAllConserves(st, order, front);
      ReserveConserves(ReserveAll(st, order, front).value, order, lines[|lines| - 1]);
    }
  }

  lemma ReleaseAtConserves(st: Stock, k: nat)
    requires Conserved(st) && k < |st.rows| && st.rows[k].status == Reserved
    ensures Conserved(ReleaseAt(st, k))
  {
    var st' := ReleaseAt(st, k);
    forall s | s in st'.skus
      ensures !st'.skus[s].deleted ==> st'.skus[s].reserved == SumHeld(st'.rows, s) && st'.skus[s].reserved >= 0
    {
      SumHeldUpdate(st.rows, k, st.rows[k].(status := Released), s);
      HeldIsCounted(st.rows, k, s);
      SumHeldBounds(st.rows, st.rows[k].order, s);
    }
  }

  /**
   * Confirming takes the quantity out of both counters, so what is available to others does not move;
   * and while the SKU is not oversold the CHECK on stock cannot fire.
   */
  lemma ConfirmAtConserves(st: Stock, k: nat)
    requires Conserved(st) && k < |st.rows| && st.rows[k].status == Reserved
    ensures NotOversold(st) ==> ConfirmAt(st, k).Ok?
    ensures ConfirmAt(st, k).Ok? ==>
              var st' := ConfirmAt(st, k).value;
              && Conserved(st')
              && (NotOversold(st) ==> NotOversold(st'))
              && st'.skus.Keys == st.skus.Keys
              && (forall s | s in st.skus ::
                    st'.skus[s].stock - st'.skus[s].reserved == st.skus[s].stock - st.skus[s].reserved)
  {
    var sku := st.rows[k].sku;
    HeldIsCounted(st.rows, k, sku);
    SumHeldBounds(st.rows, st.rows[k].order, sku);
    if ConfirmAt(st, k).Ok? {
      var st' := ConfirmAt(st, k).value;
      forall s | s in st'.skus
        ensures !st'.skus[s].deleted ==> st'.skus[s].reserved == SumHeld(st'.rows, s)
      {
        SumHeldUpdate(st.rows, k, st.rows[k].(status := Confirmed), s);
      }
    }
  }

  lemma {:induction false} ReleasedShare(st: Stock, order: nat, n: nat, sku: nat)
    requires n <= |st.rows|
    ensures SumHeld(ReleaseAll(st, order).rows[..n], sku)
         == SumHeld(st.rows[..n], sku) - SumHeldBy(st.rows[..n], order, sku)
  {
    if n > 0 {
      ReleasedShare(st, order, n - 1, sku);
      assert st.rows[..n][..n - 1] == st.rows[..n - 1];
      assert ReleaseAll(st, order).rows[..n][..n - 1] == ReleaseAll(st, order).rows[..n - 1];
    }
  }

  lemma ReleaseAllConserves(st: Stock, order: nat)
    requires Conserved(st)
    ensures Conserved(ReleaseAll(st, order))
    ensures NotOversold(st) ==> NotOversold(ReleaseAll(st, order))
    ensures forall i :: 0 <= i < |ReleaseAll(st, order).rows| ==>
              !(ReleaseAll(st, order).rows[i].order == order && ReleaseAll(st, order).rows[i].status == Reserved)
  {
    var st' := ReleaseAll(st, order);
    forall s | s in st'.skus
      ensures !st'.skus[s].deleted ==> st'.skus[s].reserved == SumHeld(st'.rows, s) && st'.skus[s].reserved >= 0
      ensures !st'.skus[s].deleted ==> st'.skus[s].reserved <= st.skus[s].reserved
    {
      ReleasedShare(st, order, |st.rows|, s);
      assert st.rows[..|st.rows|] == st.rows && st'.rows[..|st.rows|] == st'.rows;
      SumHeldBounds(st.rows, order, s);
    }
  }

  /** Confirming settles the one row, takes its quantity out of its live SKU, and touches nothing else. */
  lemma ConfirmAtExactly(st: Stock, k: nat)
    requires k < |st.rows| && st.rows[k].sku in st.skus && ConfirmAt(st, k).Ok?
    ensures var st', r := ConfirmAt(st, k).value, st.rows[k];
            && |st'.rows| == |st.rows| && st'.rows[k] == Reservation(r.order, r.sku, r.qty, Confirmed)
            && (forall i :: 0 <= i < |st.rows| && i != k ==> st'.rows[i] == st.rows[i])
            && st'.skus.Keys == st.skus.Keys
            && (forall s | s in st.skus && s != r.sku :: st'.skus[s] == st.skus[s])
            && st'.skus[r.sku].deleted == st.skus[r.sku].deleted
            && (st.skus[r.sku].deleted ==> st'.skus[r.sku] == st.skus[r.sku])
            && (!st.skus[r.sku].deleted ==> st'.skus[r.sku].stock + r.qty == st.skus[r.sku].stock)
            && (!st.skus[r.sku].deleted ==> st'.skus[r.sku].reserved + r.qty == st.skus[r.sku].reserved)
  {
    var row := st.skus[st.rows[k].sku];
    assert row.deleted ==> ConfirmAt(st, k).value.skus == st.skus;
  }

  /**
   * A cancelled order's reserved rows become released and no other row changes; stock stays as it is, and
   * every live SKU has exactly the order's share available again.
   */
  lemma ReleaseAllExactly(st: Stock, order: nat)
    ensures var st' := ReleaseAll(st, order);
            && |st'.rows| == |st.rows| && st'.skus.Keys == st.skus.Keys
            && (forall i :: 0 <= i < |st.rows| && st.rows[i].order == order && st.rows[i].status == Reserved ==>
                  st'.rows[i] == Reservation(order, st.rows[i].sku, st.rows[i].qty, Released))
            && (forall i :: 0 <= i < |st.rows| && !(st.rows[i].order == order && st.rows[i].status == Reserved) ==>
                  st'.rows[i] == st.rows[i])
            && (forall s | s in st.skus :: st'.skus[s].stock == st.skus[s].stock)
            && (forall s | s in st.skus :: st'.skus[s].deleted == st.skus[s].deleted)
            && (forall s | s in st.skus && !st.skus[s].deleted ::
                  st.skus[s].reserved - st'.skus[s].reserved == SumHeld(st.rows, s) - SumHeld(st'.rows, s))
  {
    var st' := ReleaseAll(st, order);
    forall s | s in st.skus
      ensures SumHeld(st'.rows, s) == SumHeld(st.rows, s) - SumHeldBy(st.rows, order, s)
    {
      ReleasedShare(st, order, |st.rows|, s);
      assert st.rows[..|st.rows|] == st.rows && st'.rows[..|st.rows|] == st'.rows;
    }
  }

  lemma {:induction false} NothingHeld(rows: seq<Reservation>, sku: nat)
    requires forall i :: 0 <= i < |rows| ==> rows[i].sku != sku
    ensures SumHeld(rows, sku) == 0
  {
    if rows != [] {
      NothingHeld(rows[..|rows| - 1], sku);
    }
  }

  /**
   * The admin statements: a new SKU needs an unused id; the others need a live SKU, and an adjustment may not
   * take more than there is. They change the one SKU and never what it has promised.
   */
  lemma EditDecides(st: Stock, e: AdminEdit)
    ensures Edit(st, e).Ok? <==>
            if e.AddSku? then e.sku !in st.skus
            else e.sku in st.skus && !st.skus[e.sku].deleted && (e.AdjustStock? ==> st.skus[e.sku].stock >= -e.delta)
    ensures Edit(st, e).Ok? ==>
              var skus' := Edit(st, e).value.skus;
              && skus'.Keys == st.skus.Keys + {e.sku}
              && (forall s | s in st.skus && s != e.sku :: skus'[s] == st.skus[s])
              && skus'[e.sku].reserved == (if e.AddSku? then 0 else st.skus[e.sku].reserved)
              && (skus'[e.sku].deleted <==> e.DeleteSku?)
              && match e
                 case AddSku(s, initial) => skus'[s].stock == initial
                 case SetStock(s, value) => skus'[s].stock == value
                 case AdjustStock(s, delta) => skus'[s].stock - st.skus[s].stock == delta
                 case DeleteSku(s) => skus'[s].stock == st.skus[s].stock
    ensures Edit(st, e).Err? ==> Edit(st, e).error == if e.AddSku? then ConstraintViolation else SkuNotFound
  {
  }

  lemma EditConserves(st: Stock, e: AdminEdit)
    requires Conserved(st) && Edit(st, e).Ok?
    ensures Conserved(Edit(st, e).value) && Edit(st, e).value.rows == st.rows
    ensures NotOversold(st) && !LowersStock(st, e) ==> NotOversold(Edit(st, e).value)
  {
    if e.AddSku? {
      NothingHeld(st.rows, e.sku);
    }
  }

  // ── All or nothing ──────────────────────────────────────────

  /** The whole order can be reserved: a condition on the state before the first line is touched. */
  ghost predicate Reservable(st: Stock, order: nat, lines: seq<Line>) {
    && (forall i :: 0 <= i < |lines| ==>
          && lines[i].qty > 0
          && lines[i].sku in st.skus
          && !st.skus[lines[i].sku].deleted
          && st.skus[lines[i].sku].stock - st.skus[lines[i].sku].reserved >= lines[i].qty
          && !HasRow(st.rows, order, lines[i].sku))
    && (forall i, j :: 0 <= i < j < |lines| ==> lines[i].sku != lines[j].sku)
  }

  function NewRows(order: nat, lines: seq<Line>): seq<Reservation> {
    seq(|lines|, i requires 0 <= i < |lines| => Reservation(order, lines[i].sku, lines[i].qty, Reserved))
  }

  /** SKU counters after reserving `lines`. */
  ghost predicate RaisedBy(before: map<nat, SkuRow>, after: map<nat, SkuRow>, lines: seq<Line>) {
    && after.Keys == before.Keys
    && (forall s | s in before :: (forall i :: 0 <= i < |lines| ==> lines[i].sku != s) ==> after[s] == before[s])
    && (forall i :: 0 <= i < |lines| && lines[i].sku in before ==>
          after[lines[i].sku] == before[lines[i].sku].(reserved := before[lines[i].sku].reserved + lines[i].qty))
  }

  /**
   * An order's reservation is all or nothing, and exactly when: it succeeds if and only if every line
   * fits the stock as it stood at the start, the lines name distinct SKUs and the order has no row on
   * any of them; then it adds one reserved row per line and raises exactly those counters.
   */
  lemma {:induction false} ReserveAllExactly(st: Stock, order: nat, lines: seq<Line>)
    ensures ReserveAll(st, order, lines).Ok? <==> Reservable(st, order, lines)
    ensures ReserveAll(st, order, lines).Ok? ==>
              && ReserveAll(st, order, lines).value.rows == st.rows + NewRows(order, lines)
              && RaisedBy(st.skus, ReserveAll(st, order, lines).value.skus, lines)
  {
    if lines != [] {
      var n := |lines| - 1;
      var front := lines[..n];
      ReserveAllExactly(st, order, front);
      FrontIsReservable(st, order, lines);
      if ReserveAll(st, order, front).Ok? {
        var st1 := ReserveAll(st, order, front).value;
        LastLineDecides(st, st1, order, lines);
        NewRowsSnoc(order, lines);
      }
    }
  }

  lemma FrontIsReservable(st: Stock, order: nat, lines: seq<Line>)
    requires lines != []
    ensures Reservable(st, order, lines) ==> Reservable(st, order, lines[..|lines| - 1])
  {
  }

  lemma NewRowsSnoc(order: nat, lines: seq<Line>)
    requires lines != []
    ensures var n := |lines| - 1;
            NewRows(order, lines)
            == NewRows(order, lines[..n]) + [Reservation(order, lines[n].sku, lines[n].qty, Reserved)]
  {
  }

  lemma LastLineDecides(st: Stock, st1: Stock, order: nat, lines: seq<Line>)
    requires lines != []
    requires Reservable(st, order, lines[..|lines| - 1])
    requires st1.rows == st.rows + NewRows(order, lines[..|lines| - 1])
    requires RaisedBy(st.skus, st1.skus, lines[..|lines| - 1])
    ensures Reserve(st1, order, lines[|lines| - 1]).Ok? <==> Reservable(st, order, lines)
    ensures Reserve(st1, order, lines[|lines| - 1]).Ok? ==>
              RaisedBy(st.skus, Reserve(st1, order, lines[|lines| - 1]).value.skus, lines)
  {
    var n := |lines| - 1;
    var front := lines[..n];
    RowsAfterFront(st.rows, order, front, lines[n].sku);
    OneMoreReservable(st, order, lines);
    if !Names(front, lines[n].sku) {
      Untouched(st.skus, st1.skus, front, lines[n].sku);
      if Reserve(st1, order, lines[n]).Ok? {
        OneMoreRaised(st.skus, st1.skus, lines);
      }
    }
  }

  predicate Names(lines: seq<Line>, sku: nat) {
    exists i :: 0 <= i < |lines| && lines[i].sku == sku
  }

  /** What the last line adds to the condition on the others. */
  lemma OneMoreReservable(st: Stock, order: nat, lines: seq<Line>)
    requires lines != [] && Reservable(st, order, lines[..|lines| - 1])
    ensures var line := lines[|lines| - 1];
            Reservable(st, order, lines) <==>
              && line.qty > 0 && line.sku in st.skus && !st.skus[line.sku].deleted
              && st.skus[line.sku].stock - st.skus[line.sku].reserved >= line.qty && !HasRow(st.rows, order, line.sku)
              && !Names(lines[..|lines| - 1], line.sku)
  {
    var front := lines[..|lines| - 1];
    assert forall i :: 0 <= i < |front| ==> front[i] == lines[i];
  }

  lemma Untouched(before: map<nat, SkuRow>, after: map<nat, SkuRow>, lines: seq<Line>, sku: nat)
    requires RaisedBy(before, after, lines) && !Names(lines, sku)
    ensures (sku in after <==> sku in before) && (sku in before ==> after[sku] == before[sku])
  {
  }

  lemma OneMoreRaised(before: map<nat, SkuRow>, after: map<nat, SkuRow>, lines: seq<Line>)
    requires lines != [] && RaisedBy(before, after, lines[..|lines| - 1]) && lines[|lines| - 1].sku in before
    requires !Names(lines[..|lines| - 1], lines[|lines| - 1].sku)
    ensures var line := lines[|lines| - 1];
            var row := after[line.sku];
            RaisedBy(before, after[line.sku := row.(reserved := row.reserved + line.qty)], lines)
  {
    var front := lines[..|lines| - 1];
    assert forall i :: 0 <= i < |front| ==> front[i] == lines[i];
    Untouched(before, after, front, lines[|lines| - 1].sku);
  }

  lemma RowsAfterFront(rows: seq<Reservation>, order: nat, front: seq<Line>, sku: nat)
    ensures HasRow(rows + NewRows(order, front), order, sku)
       <==> HasRow(rows, order, sku) || Names(front, sku)
  {
    var all := rows + NewRows(order, front);
    if i :| 0 <= i < |rows| && rows[i].order == order && rows[i].sku == sku {
      assert all[i] == rows[i];
    }
    if i :| 0 <= i < |front| && front[i].sku == sku {
      assert all[|rows| + i].order == order && all[|rows| + i].sku == sku;
    }
    if k :| 0 <= k < |all| && all[k].order == order && all[k].sku == sku {
      if k < |rows| {
        assert rows[k].order == order && rows[k].sku == sku;
      } else {
        assert front[k - |rows|].sku == sku;
      }
    }
  }

  // ── The rows an order still holds, as the release loop sees them ──

  function ReservedRowsOf(rows: seq<Reservation>, order: nat): seq<Reservation> {
    if rows == [] then []
    else
      var last := rows[|rows| - 1];
      ReservedRowsOf(rows[..|rows| - 1], order) +
      if last.order == order && last.status == Reserved then [last] else []
  }

  /** SKUs of the order's reserved rows, with multiplicity. */
  ghost function SkuBag(rows: seq<Reservation>, order: nat): multiset<nat> {
    if rows == [] then multiset{}
    else
      var last := rows[|rows| - 1];
      SkuBag(rows[..|rows| - 1], order) +
      if last.order == order && last.status == Reserved then multiset{last.sku} else multiset{}
  }

  ghost function BagOf(list: seq<Reservation>): multiset<nat> {
    if list == [] then multiset{} else multiset{list[0].sku} + BagOf(list[1..])
  }

  lemma FirstOfBag(list: seq<Reservation>, n: nat)
    requires n < |list|
    ensures BagOf(list[n..]) == multiset{list[n].sku} + BagOf(list[n + 1..])
    ensures BagOf(list[n..]) - multiset{list[n].sku} == BagOf(list[n + 1..]) && list[n].sku in BagOf(list[n..])
  {
    assert list[n..][1..] == list[n + 1..];
  }

  lemma {:induction false} BagAppend(list: seq<Reservation>, r: Reservation)
    ensures BagOf(list + [r]) == BagOf(list) + multiset{r.sku}
  {
    if list == [] {
      assert list + [r] == [r] && [r][1..] == [];
    } else {
      assert (list + [r])[1..] == list[1..] + [r];
      BagAppend(list[1..], r);
    }
  }

  lemma {:induction false} ListedRowsHaveTheBag(rows: seq<Reservation>, order: nat)
    ensures BagOf(ReservedRowsOf(rows, order)) == SkuBag(rows, order)
  {
    if rows != [] {
      var front := rows[..|rows| - 1];
      ListedRowsHaveTheBag(front, order);
      BagAppend(ReservedRowsOf(front, order), rows[|rows| - 1]);
      assert ReservedRowsOf(front, order) + [] == ReservedRowsOf(front, order);
    }
  }

  lemma {:induction false} BagHasRow(rows: seq<Reservation>, order: nat, sku: nat) returns (k: nat)
    requires sku in SkuBag(rows, order)
    ensures k < |rows| && Matches(rows[k], order, sku)
  {
    var n := |rows| - 1;
    if Matches(rows[n], order, sku) {
      k := n;
    } else {
      k := BagHasRow(rows[..n], order, sku);
    }
  }

  lemma {:induction false} RowInBag(rows: seq<Reservation>, order: nat, k: nat)
    requires k < |rows| && rows[k].order == order && rows[k].status == Reserved
    ensures rows[k].sku in SkuBag(rows, order)
  {
    if k < |rows| - 1 {
      RowInBag(rows[..|rows| - 1], order, k);
    }
  }

  lemma {:induction false} BagAfterRelease(rows: seq<Reservation>, order: nat, k: nat)
    requires k < |rows| && rows[k].order == order && rows[k].status == Reserved
    ensures SkuBag(rows[k := rows[k].(status := Released)], order) == SkuBag(rows, order) - multiset{rows[k].sku}
  {
    var n := |rows| - 1;
    var rows' := rows[k := rows[k].(status := Released)];
    if k == n {
      assert rows'[..n] == rows[..n];
    } else {
      assert rows'[..n] == rows[..n][k := rows[k].(status := Released)];
      BagAfterRelease(rows[..n], order, k);
      RowInBag(rows[..n], order, k);
    }
  }

  /** A row only moves from reserved to released, and only for the given order. */
  predicate OnlyReleases(before: seq<Reservation>, after: seq<Reservation>, order: nat) {
    && |after| == |before|
    && forall i :: 0 <= i < |before| ==>
         || after[i] == before[i]
         || (before[i].order == order && before[i].status == Reserved && after[i] == before[i].(status := Released))
  }

  /** Counters of live SKUs have dropped by what the order no longer holds. */
  ghost predicate DroppedBy(before: Stock, after: Stock, order: nat) {
    && after.skus.Keys == before.skus.Keys
    && forall s | s in before.skus ::
         after.skus[s] ==
         if before.skus[s].deleted then before.skus[s]
         else before.skus[s].(reserved := before.skus[s].reserved
                - (SumHeldBy(before.rows, order, s) - SumHeldBy(after.rows, order, s)))
  }

  lemma ReleaseStep(before: Stock, now: Stock, order: nat, k: nat)
    requires OnlyReleases(before.rows, now.rows, order) && DroppedBy(before, now, order)
    requires Conserved(now) && k < |now.rows| && now.rows[k].order == order && now.rows[k].status == Reserved
    ensures OnlyReleases(before.rows, ReleaseAt(now, k).rows, order)
    ensures DroppedBy(before, ReleaseAt(now, k), order)
  {
    var next := ReleaseAt(now, k);
    forall s | s in before.skus
      ensures next.skus[s] ==
              if before.skus[s].deleted then before.skus[s]
              else before.skus[s].(reserved := before.skus[s].reserved
                     - (SumHeldBy(before.rows, order, s) - SumHeldBy(next.rows, order, s)))
    {
      SumHeldByUpdate(now.rows, k, now.rows[k].(status := Released), order, s);
    }
  }

  lemma {:induction false} EmptyBagHoldsNothing(rows: seq<Reservation>, order: nat, sku: nat)
    requires SkuBag(rows, order) == multiset{}
    ensures SumHeldBy(rows, order, sku) == 0
  {
    if rows != [] {
      EmptyBagHoldsNothing(rows[..|rows| - 1], order, sku);
    }
  }

  lemma NothingReleasedYet(st: Stock, order: nat)
    ensures OnlyReleases(st.rows, st.rows, order) && DroppedBy(st, st, order)
  {
  }

  lemma LoopEndIsReleaseAll(before: Stock, now: Stock, order: nat)
    requires OnlyReleases(before.rows, now.rows, order) && DroppedBy(before, now, order)
    requires SkuBag(now.rows, order) == multiset{}
    ensures now == ReleaseAll(before, order)
  {
    forall i | 0 <= i < |now.rows| ensures now.rows[i] == ReleaseAll(before, order).rows[i] {
      if now.rows[i].order == order && now.rows[i].status == Reserved {
        RowInBag(now.rows, order, i);
      }
    }
    forall s | s in before.skus ensures now.skus[s] == ReleaseAll(before, order).skus[s] {
      EmptyBagHoldsNothing(now.rows, order, s);
    }
  }

  // ── The tables as the service updates them ──────────────────

  class CatalogTables {
    var skus: map<nat, SkuRow>
    var rows: seq<Reservation>

    ghost function State(): Stock
      reads this
    {
      Stock(skus, rows)
    }

    ghost predicate Valid()
      reads this
    {
      Conserved(State())
    }

    constructor ()
      ensures Valid() && State() == Stock(map[], [])
    {
      skus, rows := map[], [];
    }

    method ReserveInventory(order: nat, line: Line) returns (r: Result<(), InventoryError>)
      requires Valid()
      modifies this
      ensures Valid()
      ensures r.Ok? <==> Reserve(old(State()), order, line).Ok?
      ensures r.Err? ==> r.error == Reserve(old(State()), order, line).error
      ensures State() == if r.Ok? then Reserve(old(State()), order, line).value else old(State())
    {
      if line.sku !in skus || skus[line.sku].deleted
         || skus[line.sku].stock - skus[line.sku].reserved < line.qty {
        return Err(InsufficientStock);
      }
      var taken := HasRow(rows, order, line.sku);
      if line.qty <= 0 || taken {
        return Err(ConstraintViolation);
      }
      ReserveConserves(State(), order, line);
      var row := skus[line.sku];
      skus := skus[line.sku := row.(reserved := row.reserved + line.qty)];
      rows := rows + [Reservation(order, line.sku, line.qty, Reserved)];
      return Ok(());
    }

    /** The reservation loop on the consumer's transaction; a failure rolls back the lines already taken. */
    method ReserveForOrder(order: nat, lines: seq<Line>) returns (r: Result<(), InventoryError>)
      requires Valid()
      modifies this
      ensures Valid()
      ensures r.Ok? <==> ReserveAll(old(State()), order, lines).Ok?
      ensures r.Err? ==> r.error == ReserveAll(old(State()), order, lines).error
      ensures State() == if r.Ok? then ReserveAll(old(State()), order, lines).value else old(State())
    {
      var skus0, rows0 := skus, rows;
      for n := 0 to |lines|
        invariant Valid()
        invariant ReserveAll(old(State()), order, lines[..n]) == Ok(State())
      {
        assert lines[..n + 1][..n] == lines[..n];
        var step := ReserveInventory(order, lines[n]);
        if step.Err? {
          skus, rows := skus0, rows0;
          LaterLinesCannotSucceed(old(State()), order, lines, n + 1);
          return step;
        }
      }
      assert lines[..|lines|] == lines;
      return Ok(());
    }

    /** `fetch_one` may return any reserved row of the order on the SKU. */
    method ReleaseReservation(order: nat, sku: nat) returns (r: Result<(), InventoryError>, ghost k: nat)
      requires Valid()
      modifies this
      ensures Valid()
      ensures r.Ok? <==> exists i :: 0 <= i < |old(rows)| && Matches(old(rows)[i], order, sku)
      ensures r.Ok? ==> k < |old(rows)| && Matches(old(rows)[k], order, sku) && State() == ReleaseAt(old(State()), k)
      ensures r.Err? ==> State() == old(State()) && r.error == ReservationNotFound
    {
      k := 0;
      if !exists i :: 0 <= i < |rows| && Matches(rows[i], order, sku) {
        return Err(ReservationNotFound), 0;
      }
      var i :| 0 <= i < |rows| && Matches(rows[i], order, sku);
      ReleaseAtConserves(State(), i);
      k := i;
      var row := skus[sku];
      if !row.deleted {
        skus := skus[sku := row.(reserved := row.reserved - rows[i].qty)];
      }
      rows := rows[i := rows[i].(status := Released)];
      r := Ok(());
    }

    /** One turn of the release loop, for a SKU on which the order still has a reserved row. */
    method ReleaseListed(order: nat, sku: nat, ghost start: Stock) returns (r: Result<(), InventoryError>)
      requires Valid() && sku in SkuBag(rows, order)
      requires OnlyReleases(start.rows, rows, order) && DroppedBy(start, State(), order)
      modifies this
      ensures Valid() && r.Ok?
      ensures SkuBag(rows, order) == SkuBag(old(rows), order) - multiset{sku}
      ensures OnlyReleases(start.rows, rows, order) && DroppedBy(start, State(), order)
    {
      ghost var now := State();
      ghost var found := BagHasRow(rows, order, sku);
      assert Matches(rows[found], order, sku);
      ghost var k: nat;
      r, k := ReleaseReservation(order, sku);
      BagAfterRelease(now.rows, order, k);
      ReleaseStep(start, now, order, k);
    }

    /**
     * The release loop: one lookup by SKU per listed row. It never meets a missing row, even if an order
     * holds several rows on one SKU, and together the lookups release exactly the order's reserved rows.
     */
    method ReleaseAllReservations(order: nat) returns (r: Result<(), InventoryError>)
      requires Valid()
      modifies this
      ensures Valid()
      ensures r.Ok?
      ensures State() == ReleaseAll(old(State()), order)
    {
      var list := ReservedRowsOf(rows, order);
      ListedRowsHaveTheBag(rows, order);
      NothingReleasedYet(State(), order);
      assert list[0..] == list;
      var n := 0;
      while n < |list|
        invariant 0 <= n <= |list|
        invariant Valid()
        invariant SkuBag(rows, order) == BagOf(list[n..])
        invariant OnlyReleases(old(rows), rows, order)
        invariant DroppedBy(old(State()), State(), order)
      {
        FirstOfBag(list, n);
        var step := ReleaseListed(order, list[n].sku, old(State()));
        if step.Err? {
          return step;
        }
        n := n + 1;
      }
      assert list[n..] == [];
      LoopEndIsReleaseAll(old(State()), State(), order);
      return Ok(());
    }

    /** The reserved row at position `i` is confirmed, unless the CHECK on stock refuses. */
    method ConfirmRow(i: nat) returns (ok: bool)
      requires Valid() && i < |rows| && rows[i].status == Reserved
      modifies this
      ensures Valid()
      ensures ok <==> ConfirmAt(old(State()), i).Ok?
      ensures State() == if ok then ConfirmAt(old(State()), i).value else old(State())
    {
      ConfirmAtConserves(State(), i);
      var row, qty := skus[rows[i].sku], rows[i].qty;
      if !row.deleted {
        if row.stock < qty || row.reserved < qty {
          return false;
        }
        skus := skus[rows[i].sku := row.(stock := row.stock - qty, reserved := row.reserved - qty)];
      }
      rows := rows[i := rows[i].(status := Confirmed)];
      return true;
    }

    method ConfirmReservation(order: nat, sku: nat) returns (r: Result<(), InventoryError>, ghost k: nat)
      requires Valid()
      modifies this
      ensures Valid()
      ensures r.Ok? ==>
                && k < |old(rows)| && Matches(old(rows)[k], order, sku)
                && ConfirmAt(old(State()), k) == Ok(State())
      ensures r.Err? ==> State() == old(State())
      ensures old(NotOversold(State())) ==>
                (r.Ok? <==> exists i :: 0 <= i < |old(rows)| && Matches(old(rows)[i], order, sku))
    {
      k := 0;
      if !exists i :: 0 <= i < |rows| && Matches(rows[i], order, sku) {
        return Err(ReservationNotFound), 0;
      }
      var i :| 0 <= i < |rows| && Matches(rows[i], order, sku);
      ConfirmAtConserves(State(), i);
      k := i;
      var ok := ConfirmRow(i);
      r := if ok then Ok(()) else Err(ConstraintViolation);
    }
  }

  /** Once a prefix of the lines fails, the whole order fails. */
  lemma {:induction false} LaterLinesCannotSucceed(st: Stock, order: nat, lines: seq<Line>, n: nat)
    requires n <= |lines| && ReserveAll(st, order, lines[..n]).Err?
    ensures ReserveAll(st, order, lines) == ReserveAll(st, order, lines[..n])
    decreases |lines|
  {
    if n < |lines| {
      assert lines[..|lines| - 1][..n] == lines[..n];
      LaterLinesCannotSucceed(st, order, lines[..|lines| - 1], n);
    } else {
      assert lines[..n] == lines;
    }
  }
}
