/** The rule trees of the order and payment services, and what passing them means. */
module ServiceRules {
  import opened Common
  import Orders
  import Ledger
  import Payments
  import opened Rules

  datatype OrderCheck =
    | NonEmptyItems
    | MinOrderAmount(min: int)
    | MaxItemsPerOrder(max: int)
    | SupportedCurrency
    | ShippingAddressComplete
    | PositiveItemPrices
    | StatusAllowsCancellation

  datatype PaymentCheck =
    | MinAmount(min: int)
    | MaxAmount(max: int)
    | PaymentCurrencySupported
    | ValidStateForOperation
    | CaptureAmountConsistent

  const CREATION_CHECKS: seq<OrderCheck> := [
    NonEmptyItems,
    MaxItemsPerOrder(Orders.MAX_ITEMS_PER_ORDER),
    MinOrderAmount(Orders.MIN_ORDER_AMOUNT),
    SupportedCurrency,
    ShippingAddressComplete,
    PositiveItemPrices]

  const CREATION_RULES: Rule<OrderCheck> := Conjunction(CREATION_CHECKS)

  const CANCELLATION_RULES: Rule<OrderCheck> := All([Check(StatusAllowsCancellation)])

  const AUTHORIZATION_RULES: Rule<PaymentCheck> := All([
    Check(MinAmount(Payments.MIN_PAYMENT_AMOUNT)),
    Check(MaxAmount(Payments.MAX_PAYMENT_AMOUNT)),
    Check(PaymentCurrencySupported),
    Check(ValidStateForOperation)])

  /** `shipping_complete` is always passed as true: the address was validated before. */
  predicate CreationCheck(items: seq<Orders.Item>, total: int, currency: string, check: OrderCheck) {
    match check
    case NonEmptyItems => |items| > 0
    case MinOrderAmount(min) => total >= min
    case MaxItemsPerOrder(max) => |items| <= max
    case SupportedCurrency => currency in SUPPORTED_CURRENCIES
    case ShippingAddressComplete => true
    case PositiveItemPrices => forall i :: 0 <= i < |items| ==> items[i].unitPrice > 0
    case StatusAllowsCancellation => false
  }

  predicate CancellationCheck(status: Orders.OrderStatus, check: OrderCheck) {
    check == StatusAllowsCancellation ==> Orders.CanCancel(status)
  }

  predicate AuthorizationCheck(amount: int, currency: string, state: Ledger.PaymentState, check: PaymentCheck) {
    match check
    case MinAmount(min) => amount >= min
    case MaxAmount(max) => amount <= max
    case PaymentCurrencySupported => currency in SUPPORTED_CURRENCIES
    case ValidStateForOperation => state == Ledger.New || state == Ledger.Failed
    case CaptureAmountConsistent => true
  }

  /** A request that validates passes the creation rules exactly when the order is creatable. */
  lemma CreationRulesMeanCreatable(items: seq<Orders.Item>, currency: string)
    requires forall i :: 0 <= i < |items| ==> Orders.ItemIsValid(items[i])
    ensures Evaluate(CREATION_RULES, c => CreationCheck(items, Orders.OrderValue(items), currency, c))
       <==> Orders.Creatable(items, currency)
  {
    var p := c => CreationCheck(items, Orders.OrderValue(items), currency, c);
    ConjunctionOfChecks(CREATION_CHECKS, p);
    AllSix(p);
  }

  lemma AllSix(p: OrderCheck -> bool)
    ensures (forall i :: 0 <= i < |CREATION_CHECKS| ==> p(CREATION_CHECKS[i]))
       <==> && p(NonEmptyItems) && p(MaxItemsPerOrder(Orders.MAX_ITEMS_PER_ORDER))
            && p(MinOrderAmount(Orders.MIN_ORDER_AMOUNT)) && p(SupportedCurrency)
            && p(ShippingAddressComplete) && p(PositiveItemPrices)
  {
    var checks := CREATION_CHECKS;
    if forall i :: 0 <= i < |checks| ==> p(checks[i]) {
      assert p(checks[0]) && p(checks[1]) && p(checks[2]) && p(checks[3]) && p(checks[4]) && p(checks[5]);
    }
  }

  function Conjunction<A>(checks: seq<A>): Rule<A> {
    All(seq(|checks|, i requires 0 <= i < |checks| => Check(checks[i])))
  }

  lemma ConjunctionOfChecks<A>(checks: seq<A>, p: A -> bool)
    ensures Evaluate(Conjunction(checks), p) <==> forall i :: 0 <= i < |checks| ==> p(checks[i])
  {
    var rules := Conjunction(checks).rules;
    assert forall i :: 0 <= i < |checks| ==> (Evaluate(rules[i], p) <==> p(checks[i]));
  }

  /** The buyer may cancel exactly when the state machine permits it, and the report names that one check. */
  lemma CancellationRulesMeanTransition(status: Orders.OrderStatus)
    ensures Evaluate(CANCELLATION_RULES, c => CancellationCheck(status, c))
       <==> Orders.TransitionTo(status, Orders.Cancelled).Ok?
  {
    var p := c => CancellationCheck(status, c);
    assert Evaluate(CANCELLATION_RULES.rules[0], p) <==> p(StatusAllowsCancellation);
    Orders.CancellationRuleIsTransition(status);
  }

  lemma AuthorizationRulesMeanAllowed(amount: int, currency: string, state: Ledger.PaymentState)
    ensures Evaluate(AUTHORIZATION_RULES, c => AuthorizationCheck(amount, currency, state, c))
       <==> Payments.AuthorizationAllowed(amount, currency, state)
  {
    var p := c => AuthorizationCheck(amount, currency, state, c);
    var rules := AUTHORIZATION_RULES.rules;
    assert forall i :: 0 <= i < 4 ==> (Evaluate(rules[i], p) <==> p(rules[i].check));
    if Evaluate(AUTHORIZATION_RULES, p) {
      assert p(rules[0].check) && p(rules[1].check) && p(rules[2].check) && p(rules[3].check);
    }
  }

  /** A refused authorization is explained by exactly what keeps it from being allowed. */
  lemma AuthorizationRefusalExplained(amount: int, currency: string, state: Ledger.PaymentState)
    requires !Payments.AuthorizationAllowed(amount, currency, state)
    ensures exists c ::
              c in Failures(AUTHORIZATION_RULES, x => AuthorizationCheck(amount, currency, state, x))
              && !AuthorizationCheck(amount, currency, state, c)
  {
    AuthorizationRulesMeanAllowed(amount, currency, state);
    assert Conjunctive(AUTHORIZATION_RULES);
    ConjunctiveIsPlain(AUTHORIZATION_RULES);
    ExplanationIsSufficient(AUTHORIZATION_RULES, x => AuthorizationCheck(amount, currency, state, x));
  }
}
