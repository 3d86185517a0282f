/** The payment service: gateway-driven handlers over the ledger, and the tables they update step by step. */
module Payments {
  import opened Common
  import opened Ledger
  import opened Events

  const MIN_PAYMENT_AMOUNT: int := UNIT / 2
  const MAX_PAYMENT_AMOUNT: int := 100_000 * UNIT
  const MAX_CAPTURE_RETRIES: nat := 10

  /** The gateway's answers. */
  datatype AuthAnswer = Approved(amount: int, gatewayRef: nat) | AuthError

  datatype CaptureAnswer = CaptureOk | CaptureRetryable | CaptureRefused

  datatype GatewayAnswer = GatewayAnswer(auth: AuthAnswer, capture: CaptureAnswer, voidOk: bool)

  datatype PaymentError = ValidationFailed | AmountTampered | GatewayRefused | Books(error: LedgerError)

  /** Result of a handler: the new books and the event written to the outbox, if any. */
  datatype Written = Written(books: Ledger.Books, event: Option<Event>)

  /** The authorization rules: amount bounds, supported currency, payment not begun or wholly discarded. */
  predicate AuthorizationAllowed(amount: int, currency: string, state: PaymentState) {
    && MIN_PAYMENT_AMOUNT <= amount <= MAX_PAYMENT_AMOUNT
    && currency in SUPPORTED_CURRENCIES
    && (state == New || state == Failed)
  }

  predicate LiveAuthorization(txs: seq<Transaction>, order: nat) {
    exists i :: 0 <= i < |txs| && txs[i].order == order && txs[i].kind == Authorization && txs[i].status != Discarded
  }

  function Authorize(b: Ledger.Books, order: nat, amount: int, currency: string,
                     answer: AuthAnswer): Result<Written, PaymentError> {
    if LiveAuthorization(b.txs, order) then Ok(Written(b, None))
    else if !AuthorizationAllowed(amount, currency, StateOf(b, order)) then Err(ValidationFailed)
    else
      match answer
      case AuthError => Ok(Written(b, Some(PaymentFailed(order, AuthorizationDeclined))))
      case Approved(approved, gatewayRef) =>
        if approved != amount then Err(AmountTampered)
        else
          match RecordAuthorization(b, order, amount, currency, gatewayRef)
          case Err(e) => Err(PaymentError.Books(e))
          case Ok(b') => Ok(Written(b', Some(PaymentAuthorizedEvent(order))))
  }

  /** One capture attempt; `count` is what a follow-up retry request will carry. */
  function CaptureOnce(b: Ledger.Books, order: nat, count: nat, answer: CaptureAnswer): Result<Written, PaymentError> {
    match FindPostedAuthorization(b, order)
    case Err(e) => Err(PaymentError.Books(e))
    case Ok(a) =>
      match answer
      case CaptureOk =>
        (match RecordCapture(b, order, a.currency, a.amount, a.gatewayRef)
         case Err(e) => Err(PaymentError.Books(e))
         case Ok(b') => Ok(Written(b', Some(PaymentCaptured(order)))))
      case CaptureRetryable => Ok(Written(b, Some(CaptureRetryRequested(order, count))))
      case CaptureRefused => Ok(Written(b, Some(PaymentFailed(order, CaptureDeclined))))
  }

  function CaptureRetry(b: Ledger.Books, order: nat, count: nat, answer: CaptureAnswer): Result<Written, PaymentError> {
    if count >= MAX_CAPTURE_RETRIES then Ok(Written(b, Some(PaymentFailed(order, RetriesExhausted))))
    else CaptureOnce(b, order, count + 1, answer)
  }

  function VoidIfAuthorized(b: Ledger.Books, order: nat, voidOk: bool): Result<Written, PaymentError> {
    if StateOf(b, order) != Authorized then Ok(Written(b, None))
    else
      match FindPostedAuthorization(b, order)
      case Err(e) => Err(PaymentError.Books(e))
      case Ok(a) =>
        FirstPostedAuthIsOne(b.txs, IdsOf(b.txs, order));
        if !voidOk then Err(GatewayRefused)
        else
          match RecordVoid(b, order, a.id, a.currency, a.amount)
          case Err(e) => Err(PaymentError.Books(e))
          case Ok(b') => Ok(Written(b', Some(PaymentVoided(order))))
  }

  function Handle(b: Ledger.Books, e: Event, g: GatewayAnswer): Result<Written, PaymentError> {
    match e
    case InventoryReservedEvent(o, _, total, currency) => Authorize(b, o, total, currency, g.auth)
    case OrderConfirmed(o) => CaptureOnce(b, o, 1, g.capture)
    case OrderCancelled(o) => VoidIfAuthorized(b, o, g.voidOk)
    case CaptureRetryRequested(o, count) => CaptureRetry(b, o, count, g.capture)
    case _ => Ok(Written(b, None))
  }

  /** Which event a handler writes is decided by the event it handles. */
  lemma WrittenFor(b: Ledger.Books, e: Event, g: GatewayAnswer)
    requires Handle(b, e, g).Ok? && Handle(b, e, g).value.event.Some?
    ensures var out := Handle(b, e, g).value.event.value;
            && out.order == e.order
            && (match e
                case InventoryReservedEvent(o, _, _, _) =>
                  out == PaymentAuthorizedEvent(o) || out == PaymentFailed(o, AuthorizationDeclined)
                case OrderConfirmed(o) =>
                  out in {PaymentCaptured(o), CaptureRetryRequested(o, 1), PaymentFailed(o, CaptureDeclined)}
                case CaptureRetryRequested(o, n) =>
                  if n >= MAX_CAPTURE_RETRIES then out == PaymentFailed(o, RetriesExhausted)
                  else out in {PaymentCaptured(o), CaptureRetryRequested(o, n + 1), PaymentFailed(o, CaptureDeclined)}
                case OrderCancelled(o) => out == PaymentVoided(o) && StateOf(b, o) == Authorized
                case _ => false)
  {
  }

  // ── The abstract payment machine ────────────────────────────

  lemma NewHasNoLiveAuthorization(b: Ledger.Books, o: nat)
    requires Shaped(b)
    ensures !LiveAuthorization(b.txs, o) <==> StateOf(b, o) == New || StateOf(b, o) == Voided
  {
    StateTellsShape(b, o);
    IdsComplete(b.txs, o);
    var ids := IdsOf(b.txs, o);
    if i :| 0 <= i < |b.txs| && b.txs[i].order == o && b.txs[i].kind == Authorization && b.txs[i].status != Discarded {
      assert i in ids;
    }
  }

  /** Events written without moving the ledger. */
  predicate StallsOn(e: Event, order: nat) {
    e.order == order && (e.PaymentFailed? || e.CaptureRetryRequested?)
  }

  /**
   * Every handler takes each order's ledger along New -> Authorized -> {Captured, Voided} or leaves it
   * alone, touches no other order, and writes the matching event exactly when the state moves.
   */
  lemma HandleAdvances(b: Ledger.Books, e: Event, g: GatewayAnswer)
    requires Shaped(b) && Handle(b, e, g).Ok?
    ensures var w := Handle(b, e, g).value;
            || (w.books == b && (w.event.None? || StallsOn(w.event.value, e.order)))
            || (e.InventoryReservedEvent? && StateOf(b, e.order) == New && Advances(b, w.books, e.order, Authorized)
                && w.event == Some(PaymentAuthorizedEvent(e.order))
                && AmountOf(w.books, |b.txs|) == e.total
                && w.books.entries[2 * |b.txs|].account.currency == e.currency)
            || ((e.OrderConfirmed? || e.CaptureRetryRequested?) && StateOf(b, e.order) == Authorized
                && Advances(b, w.books, e.order, Captured) && w.event == Some(PaymentCaptured(e.order)))
            || (e.OrderCancelled? && StateOf(b, e.order) == Authorized
                && Advances(b, w.books, e.order, Voided) && w.event == Some(PaymentVoided(e.order)))
  {
    match e {
      case InventoryReservedEvent(o, _, total, currency) => AuthorizeAdvances(b, o, total, currency, g.auth);
      case OrderConfirmed(o) => CaptureOnceAdvances(b, o, 1, g.capture);
      case CaptureRetryRequested(o, count) =>
        if count < MAX_CAPTURE_RETRIES {
          CaptureOnceAdvances(b, o, count + 1, g.capture);
        }
      case OrderCancelled(o) =>
        if StateOf(b, o) == Authorized {
          VoidAdvances(b, o);
        }
      case _ =>
    }
  }

  lemma AuthorizeAdvances(b: Ledger.Books, o: nat, amount: int, currency: string, answer: AuthAnswer)
    requires Shaped(b) && Authorize(b, o, amount, currency, answer).Ok?
    ensures var w := Authorize(b, o, amount, currency, answer).value;
            || (w.books == b && (w.event.None? || StallsOn(w.event.value, o)))
            || (&& StateOf(b, o) == New && Advances(b, w.books, o, Authorized)
                && w.event == Some(PaymentAuthorizedEvent(o))
                && AmountOf(w.books, |b.txs|) == amount && w.books.entries[2 * |b.txs|].account.currency == currency)
  {
    NewHasNoLiveAuthorization(b, o);
    if StateOf(b, o) == New && amount > 0 && answer.Approved? {
      AuthorizationAdvances(b, o, amount, currency, answer.gatewayRef);
    }
  }

  lemma CaptureOnceAdvances(b: Ledger.Books, o: nat, count: nat, answer: CaptureAnswer)
    requires Shaped(b) && CaptureOnce(b, o, count, answer).Ok?
    ensures var w := CaptureOnce(b, o, count, answer).value;
            || (w.books == b && w.event.Some? && StallsOn(w.event.value, o))
            || (StateOf(b, o) == Authorized && Advances(b, w.books, o, Captured) && w.event == Some(PaymentCaptured(o)))
  {
    FindInShaped(b, o);
    CaptureAdvances(b, o);
  }

  // ── Which answer leads to what ──────────────────────────────

  /** The bounds of the authorization rules: from 0.50 to 100,000.00, in five currencies. */
  predicate WithinRules(amount: int, currency: string) {
    5_000 <= amount <= 1_000_000_000 && currency in {"USD", "KRW", "EUR", "GBP", "JPY"}
  }

  /**
   * InventoryReserved, by the payment's state and the gateway's answer. A payment not begun is authorized,
   * and the books move, if and only if the total is within the rules and the gateway approves exactly it;
   * a declined one is reported, a tampered approval or a total outside the rules is an error. A payment
   * that is authorized or captured is left alone, and a voided one refused.
   */
  lemma AuthorizationDecides(b: Ledger.Books, e: Event, g: GatewayAnswer)
    requires Shaped(b) && e.InventoryReservedEvent?
    ensures var r := Handle(b, e, g);
            match StateOf(b, e.order)
            case New =>
              var fine := WithinRules(e.total, e.currency);
              var exact := g.auth.Approved? && g.auth.amount == e.total;
              && (r.Ok? && r.value.books != b <==> fine && exact)
              && (r.Ok? && r.value.event == Some(PaymentAuthorizedEvent(e.order)) <==> fine && exact)
              && (r == Ok(Written(b, Some(PaymentFailed(e.order, AuthorizationDeclined)))) <==>
                  fine && g.auth.AuthError?)
              && (r == Err(AmountTampered) <==> fine && g.auth.Approved? && !exact)
              && (r == Err(ValidationFailed) <==> !fine)
            case Voided => r == Err(ValidationFailed)
            case _ => r == Ok(Written(b, None))
  {
    NewHasNoLiveAuthorization(b, e.order);
    NeverFailed(b, e.order);
    if StateOf(b, e.order) == New {
      if e.total > 0 && g.auth.Approved? {
        RecordedMoves(b, e.order, e.total, e.currency, g.auth.gatewayRef);
      }
      AnswerOfNew(b, e.order, e.total, e.currency, g.auth);
    }
  }

  lemma NeverFailed(b: Ledger.Books, o: nat)
    requires Shaped(b)
    ensures StateOf(b, o) in {New, Authorized, Captured, Voided}
  {
    StateTellsShape(b, o);
  }

  lemma RecordedMoves(b: Ledger.Books, o: nat, amount: int, currency: string, gatewayRef: nat)
    requires Shaped(b) && StateOf(b, o) == New && amount > 0
    ensures var r := RecordAuthorization(b, o, amount, currency, gatewayRef); r.Ok? && r.value != b
  {
    AuthorizationAdvances(b, o, amount, currency, gatewayRef);
  }

  lemma AnswerOfNew(b: Ledger.Books, o: nat, amount: int, currency: string, answer: AuthAnswer)
    requires StateOf(b, o) == New && !LiveAuthorization(b.txs, o)
    requires amount > 0 && answer.Approved? ==>
               var r := RecordAuthorization(b, o, amount, currency, answer.gatewayRef); r.Ok? && r.value != b
    ensures var r := Authorize(b, o, amount, currency, answer);
            var fine := WithinRules(amount, currency);
            var exact := answer.Approved? && answer.amount == amount;
            && (r.Ok? && r.value.books != b <==> fine && exact)
            && (r.Ok? && r.value.event == Some(PaymentAuthorizedEvent(o)) <==> fine && exact)
            && (r == Ok(Written(b, Some(PaymentFailed(o, AuthorizationDeclined)))) <==> fine && answer.AuthError?)
            && (r == Err(AmountTampered) <==> fine && answer.Approved? && !exact)
            && (r == Err(ValidationFailed) <==> !fine)
  {
  }

  /** The number a follow-up retry request of `e` carries. */
  function NextCount(e: Event): nat
    requires e.OrderConfirmed? || e.CaptureRetryRequested?
  {
    if e.CaptureRetryRequested? then e.count + 1 else 1
  }

  /**
   * A capture request on an authorized payment, before ten retries: captured, and only then are the books
   * moved, if and only if the gateway captures; asked for again with the next number if and only if its
   * error is retryable; failed if and only if it refuses.
   */
  lemma CaptureDecides(b: Ledger.Books, e: Event, g: GatewayAnswer)
    requires Shaped(b) && (e.OrderConfirmed? || (e.CaptureRetryRequested? && e.count < 10))
    ensures var r := Handle(b, e, g);
            && (r.Ok? <==> StateOf(b, e.order) == Authorized)
            && (r.Ok? ==>
                  var w := r.value;
                  && (w.event == Some(PaymentCaptured(e.order)) <==> g.capture == CaptureOk)
                  && (w.books != b <==> g.capture == CaptureOk)
                  && (StateOf(w.books, e.order) == if g.capture == CaptureOk then Captured else Authorized)
                  && (w.event == Some(CaptureRetryRequested(e.order, NextCount(e))) <==> g.capture == CaptureRetryable)
                  && (w.event == Some(PaymentFailed(e.order, CaptureDeclined)) <==> g.capture == CaptureRefused))
  {
    FindInShaped(b, e.order);
    if StateOf(b, e.order) == Authorized {
      CaptureAdvances(b, e.order);
    }
  }

  /** The tenth retry is the last: any later request is given up, whatever the gateway would say. */
  lemma TenRetries(b: Ledger.Books, e: Event, g: GatewayAnswer)
    requires e.CaptureRetryRequested?
    ensures Handle(b, e, g) == Ok(Written(b, Some(PaymentFailed(e.order, RetriesExhausted)))) <==> e.count >= 10
  {
  }

  /** A cancellation voids an authorized payment if and only if the gateway grants it, and leaves any other alone. */
  lemma VoidDecides(b: Ledger.Books, o: nat, g: GatewayAnswer)
    requires Shaped(b)
    ensures var r := Handle(b, OrderCancelled(o), g);
            if StateOf(b, o) != Authorized then r == Ok(Written(b, None))
            else if !g.voidOk then r == Err(GatewayRefused)
            else r.Ok? && r.value.event == Some(PaymentVoided(o)) && StateOf(r.value.books, o) == Voided
  {
    if StateOf(b, o) == Authorized {
      VoidAdvances(b, o);
    }
  }

  // ── The tables as the service updates them ──────────────────

  class PaymentTables {
    var accounts: set<Account>
    var txs: seq<Transaction>
    var entries: seq<Entry>
    var outbox: seq<Event>

    ghost function State(): Ledger.Books
      reads this
    {
      Ledger.Books(accounts, txs, entries)
    }

    constructor ()
      ensures State() == EMPTY && outbox == []
    {
      accounts, txs, entries, outbox := {}, [], [], [];
    }

    /** Insert of a pending row under a unique idempotency key. */
    method CreateTransaction(order: nat, kind: TransactionType, gatewayRef: Option<nat>)
      returns (r: Result<nat, LedgerError>)
      modifies this`txs
      ensures r.Ok? <==> !KeyTaken(old(txs), order, kind)
      ensures r.Ok? ==> r.value == |old(txs)| && txs == old(txs) + [Transaction(order, kind, Pending, gatewayRef)]
      ensures r.Err? ==> r.error == DuplicateKey && txs == old(txs)
    {
      var taken := KeyTaken(txs, order, kind);
      if taken {
        return Err(DuplicateKey);
      }
      r := Ok(|txs|);
      txs := txs + [Transaction(order, kind, Pending, gatewayRef)];
    }

    method UpdateTransactionStatus(id: nat, status: TransactionStatus)
      requires id < |txs|
      modifies this`txs
      ensures txs == old(txs)[id := old(txs)[id].(status := status)]
    {
      txs := txs[id := txs[id].(status := status)];
    }

    method CreateEntry(tx: nat, account: Account, direction: Direction, amount: int)
      returns (r: Result<(), LedgerError>)
      modifies this`entries
      ensures r.Ok? <==> amount > 0
      ensures r.Err? ==> r.error == BadAmount
      ensures entries == if r.Ok? then old(entries) + [Entry(tx, account, direction, amount)] else old(entries)
    {
      if amount <= 0 {
        return Err(BadAmount);
      }
      entries := entries + [Entry(tx, account, direction, amount)];
      return Ok(());
    }

    method WriteEntryPair(tx: nat, debit: Account, credit: Account, amount: int) returns (r: Result<(), LedgerError>)
      modifies this`entries
      ensures r.Ok? <==> amount > 0
      ensures r.Err? ==> r.error == BadAmount
      ensures r.Ok? ==> entries == old(entries) + [Entry(tx, debit, Debit, amount), Entry(tx, credit, Credit, amount)]
      ensures r.Err? ==> entries == old(entries)
    {
      r := CreateEntry(tx, debit, Debit, amount);
      if r.Ok? {
        r := CreateEntry(tx, credit, Credit, amount);
      }
    }

    /**
     * The statements shared by the three `record_*` functions: accounts, a pending row, its entry pair,
     * then posted. An error leaves the tables as the rolled-back transaction does.
     */
    method RecordTransaction(order: nat, kind: TransactionType, gatewayRef: Option<nat>,
                             debit: Account, credit: Account, amount: int) returns (r: Result<(), LedgerError>)
      modifies this`accounts, this`txs, this`entries
      ensures r.Ok? <==> Post(old(State()), order, kind, gatewayRef, debit, credit, amount).Ok?
      ensures r.Err? ==> r.error == Post(old(State()), order, kind, gatewayRef, debit, credit, amount).error
      ensures State() == if r.Ok? then Post(old(State()), order, kind, gatewayRef, debit, credit, amount).value
                         else old(State())
    {
      var accounts0, txs0 := accounts, txs;
      accounts := accounts + {debit} + {credit};
      var created := CreateTransaction(order, kind, gatewayRef);
      if created.Err? {
        accounts := accounts0;
        return Err(created.error);
      }
      var paired := WriteEntryPair(created.value, debit, credit, amount);
      if paired.Err? {
        accounts, txs := accounts0, txs0;
        return paired;
      }
      UpdateTransactionStatus(created.value, Posted);
      return Ok(());
    }

    method RecordVoidOf(order: nat, auth: PostedAuth) returns (r: Result<(), LedgerError>)
      requires auth.id < |txs|
      modifies this`accounts, this`txs, this`entries
      ensures r.Ok? <==> RecordVoid(old(State()), order, auth.id, auth.currency, auth.amount).Ok?
      ensures r.Err? ==> r.error == RecordVoid(old(State()), order, auth.id, auth.currency, auth.amount).error
      ensures State() == if r.Ok? then RecordVoid(old(State()), order, auth.id, auth.currency, auth.amount).value
                         else old(State())
    {
      var txs0 := txs;
      UpdateTransactionStatus(auth.id, Discarded);
      r := RecordTransaction(order, Void, None, Account(Buyer, order, auth.currency),
                             Account(GatewayHolding, order, auth.currency), auth.amount);
      if r.Err? {
        txs := txs0;
      }
    }

    method HandleInventoryReserved(order: nat, amount: int, currency: string, answer: AuthAnswer)
      returns (r: Result<(), PaymentError>)
      modifies this
      ensures var spec := Authorize(old(State()), order, amount, currency, answer);
              && (r.Ok? <==> spec.Ok?) && (r.Err? ==> r.error == spec.error)
              && State() == (if spec.Ok? then spec.value.books else old(State()))
              && outbox == old(outbox) + (if spec.Ok? && spec.value.event.Some? then [spec.value.event.value] else [])
    {
      var live := LiveAuthorization(txs, order);
      if live {
        return Ok(());
      }
      var state := StateOf(Ledger.Books(accounts, txs, entries), order);
      if !AuthorizationAllowed(amount, currency, state) {
        return Err(ValidationFailed);
      }
      match answer {
        case AuthError =>
          outbox := outbox + [PaymentFailed(order, AuthorizationDeclined)];
        case Approved(approved, gatewayRef) =>
          if approved != amount {
            return Err(AmountTampered);
          }
          var recorded := RecordTransaction(order, Authorization, Some(gatewayRef),
                                            Account(GatewayHolding, order, currency),
                                            Account(Buyer, order, currency), amount);
          if recorded.Err? {
            return Err(PaymentError.Books(recorded.error));
          }
          outbox := outbox + [PaymentAuthorizedEvent(order)];
      }
      return Ok(());
    }

    method HandleCapture(order: nat, count: nat, answer: CaptureAnswer) returns (r: Result<(), PaymentError>)
      modifies this
      ensures var spec := CaptureOnce(old(State()), order, count, answer);
              && (r.Ok? <==> spec.Ok?) && (r.Err? ==> r.error == spec.error)
              && State() == (if spec.Ok? then spec.value.books else old(State()))
              && outbox == old(outbox) + (if spec.Ok? && spec.value.event.Some? then [spec.value.event.value] else [])
    {
      var found := FindPostedAuthorization(Ledger.Books(accounts, txs, entries), order);
      if found.Err? {
        return Err(PaymentError.Books(found.error));
      }
      var a := found.value;
      match answer {
        case CaptureOk =>
          var recorded := RecordTransaction(order, Capture, Some(a.gatewayRef),
                                            Account(PlatformRevenue, order, a.currency),
                                            Account(GatewayHolding, order, a.currency), a.amount);
          if recorded.Err? {
            return Err(PaymentError.Books(recorded.error));
          }
          outbox := outbox + [PaymentCaptured(order)];
        case CaptureRetryable =>
          outbox := outbox + [CaptureRetryRequested(order, count)];
        case CaptureRefused =>
          outbox := outbox + [PaymentFailed(order, CaptureDeclined)];
      }
      return Ok(());
    }

    method HandleCaptureRetry(order: nat, count: nat, answer: CaptureAnswer) returns (r: Result<(), PaymentError>)
      modifies this
      ensures var spec := CaptureRetry(old(State()), order, count, answer);
              && (r.Ok? <==> spec.Ok?) && (r.Err? ==> r.error == spec.error)
              && State() == (if spec.Ok? then spec.value.books else old(State()))
              && outbox == old(outbox) + (if spec.Ok? && spec.value.event.Some? then [spec.value.event.value] else [])
    {
      if count >= MAX_CAPTURE_RETRIES {
        outbox := outbox + [PaymentFailed(order, RetriesExhausted)];
        return Ok(());
      }
      r := HandleCapture(order, count + 1, answer);
    }

    method HandleOrderCancelled(order: nat, voidOk: bool) returns (r: Result<(), PaymentError>)
      modifies this
      ensures var spec := VoidIfAuthorized(old(State()), order, voidOk);
              && (r.Ok? <==> spec.Ok?) && (r.Err? ==> r.error == spec.error)
              && State() == (if spec.Ok? then spec.value.books else old(State()))
              && outbox == old(outbox) + (if spec.Ok? && spec.value.event.Some? then [spec.value.event.value] else [])
    {
      var books := Ledger.Books(accounts, txs, entries);
      if StateOf(books, order) != Authorized {
        return Ok(());
      }
      var found := FindPostedAuthorization(books, order);
      if found.Err? {
        return Err(PaymentError.Books(found.error));
      }
      if !voidOk {
        return Err(GatewayRefused);
      }
      FirstPostedAuthIsOne(txs, IdsOf(txs, order));
      var recorded := RecordVoidOf(order, found.value);
      if recorded.Err? {
        return Err(PaymentError.Books(recorded.error));
      }
      outbox := outbox + [PaymentVoided(order)];
      return Ok(());
    }
  }
}
