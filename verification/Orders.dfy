/** The order aggregate: status machine, request validation, and the rows the order service updates. */
module Orders {
  import opened Common

  datatype OrderStatus =
    | Pending
    | InventoryReserved
    | PaymentAuthorized
    | Confirmed
    | Shipped
    | Delivered
    | Cancelled
    | Returned

  datatype TransitionError = InvalidTransition(from: OrderStatus, to: OrderStatus)

  function TransitionTo(from: OrderStatus, target: OrderStatus): Result<OrderStatus, TransitionError> {
    var allowed :=
      match from
      case Pending => target == InventoryReserved || target == Cancelled
      case InventoryReserved => target == PaymentAuthorized || target == Cancelled
      case PaymentAuthorized => target == Confirmed || target == Cancelled
      case Confirmed => target == Shipped || target == Cancelled
      case Shipped => target == Delivered || target == Cancelled
      case Delivered => target == Returned
      case Cancelled => false
      case Returned => false;
    if allowed then Ok(target) else Err(InvalidTransition(from, target))
  }

  predicate CanCancel(s: OrderStatus) {
    s == Pending || s == InventoryReserved || s == PaymentAuthorized || s == Confirmed || s == Shipped
  }

  /** The buyer's cancellation rule and the state machine never disagree. */
  lemma CancellationRuleIsTransition(s: OrderStatus)
    ensures CanCancel(s) <==> TransitionTo(s, Cancelled).Ok?
  {
  }

  /** A ranking that every permitted transition raises: the machine has no cycles. */
  function Rank(s: OrderStatus): nat {
    match s
    case Pending => 0
    case InventoryReserved => 1
    case PaymentAuthorized => 2
    case Confirmed => 3
    case Shipped => 4
    case Delivered => 5
    case Cancelled => 6
    case Returned => 6
  }

  /**
   * The machine in full: from a status one may go to the one next on the main line, and to Cancelled from
   * everything before Delivered.
   */
  lemma TransitionsExactly(a: OrderStatus, b: OrderStatus)
    ensures TransitionTo(a, b).Ok? <==>
              || (b != Cancelled && a != Cancelled && Rank(b) == Rank(a) + 1)
              || (b == Cancelled && Rank(a) <= 4)
    ensures TransitionTo(a, b) == if TransitionTo(a, b).Ok? then Ok(b) else Err(InvalidTransition(a, b))
  {
  }

  /** A status history that starts at Pending and takes only permitted transitions. */
  predicate IsPath(h: seq<OrderStatus>) {
    && h != []
    && h[0] == Pending
    && forall i :: 0 < i < |h| ==> TransitionTo(h[i - 1], h[i]).Ok?
  }

  /** Along a path the rank grows strictly, so no status is ever entered twice. */
  lemma {:induction false} PathRises(h: seq<OrderStatus>, i: nat, j: nat)
    requires IsPath(h) && i < j < |h|
    ensures Rank(h[i]) < Rank(h[j])
    decreases j
  {
    assert TransitionTo(h[j - 1], h[j]).Ok?;
    if i < j - 1 {
      PathRises(h, i, j - 1);
    }
  }

  // ── Request validation ──────────────────────────────────────

  const MAX_ORDER_QUANTITY: int := 9999
  const MAX_ITEMS_PER_ORDER: int := 100
  const MIN_ORDER_AMOUNT: int := UNIT

  datatype Item = Item(sku: nat, qty: int, unitPrice: int)

  datatype ValidItem = ValidItem(item: Item, totalPrice: int)

  datatype RequestError = EmptyOrder | BadQuantity | BadPrice

  predicate ItemIsValid(i: Item) {
    0 < i.qty <= MAX_ORDER_QUANTITY && 0 <= i.unitPrice
  }

  /** The value of an order: the sum over its lines of quantity times unit price. */
  function OrderValue(items: seq<Item>): int {
    if items == [] then 0
    else OrderValue(items[..|items| - 1]) + items[|items| - 1].qty * items[|items| - 1].unitPrice
  }

  /**
   * The validation loop of a create-order request. It accepts exactly the non-empty requests whose
   * lines are all valid, keeps every line in order, and the total it accumulates is the order's value.
   */
  method ValidateRequest(items: seq<Item>) returns (r: Result<(seq<ValidItem>, int), RequestError>)
    ensures r.Ok? <==> items != [] && forall i :: 0 <= i < |items| ==> ItemIsValid(items[i])
    ensures r.Ok? ==>
              && |r.value.0| == |items|
              && (forall i :: 0 <= i < |items| ==>
                    r.value.0[i] == ValidItem(items[i], items[i].qty * items[i].unitPrice))
              && r.value.1 == OrderValue(items)
    ensures items == [] ==> r == Err(EmptyOrder)
  {
    if items == [] {
      return Err(EmptyOrder);
    }
    var valid: seq<ValidItem> := [];
    var total := 0;
    for n := 0 to |items|
      invariant |valid| == n
      invariant forall i :: 0 <= i < n ==> ItemIsValid(items[i])
      invariant forall i :: 0 <= i < n ==> valid[i] == ValidItem(items[i], items[i].qty * items[i].unitPrice)
      invariant total == OrderValue(items[..n])
    {
      var item := items[n];
      if item.qty <= 0 || item.qty > MAX_ORDER_QUANTITY {
        return Err(BadQuantity);
      }
      if item.unitPrice < 0 {
        return Err(BadPrice);
      }
      var price := item.qty * item.unitPrice;
      total := total + price;
      valid := valid + [ValidItem(item, price)];
      assert items[..n + 1][..n] == items[..n];
    }
    assert items[..|items|] == items;
    return Ok((valid, total));
  }

  /** What `create_order` accepts: a valid request that also passes the creation rules. */
  predicate Creatable(items: seq<Item>, currency: string) {
    && 0 < |items| <= MAX_ITEMS_PER_ORDER
    && (forall i :: 0 <= i < |items| ==> ItemIsValid(items[i]) && items[i].unitPrice > 0)
    && OrderValue(items) >= MIN_ORDER_AMOUNT
    && currency in SUPPORTED_CURRENCIES
  }

  /** Creation in numbers: 1 to 100 lines of 1 to 9999 pieces at a positive price, worth at least 1.00. */
  lemma CreatableInNumbers(items: seq<Item>, currency: string)
    ensures Creatable(items, currency) <==>
              && 1 <= |items| <= 100
              && (forall i :: 0 <= i < |items| ==> 1 <= items[i].qty <= 9999 && items[i].unitPrice > 0)
              && OrderValue(items) >= 10_000
              && currency in {"USD", "KRW", "EUR", "GBP", "JPY"}
  {
  }
}
