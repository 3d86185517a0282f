/**
 * The payment service's double-entry ledger.
 * A transaction's id is its position, so later rows have later `created_at`. The idempotency keys
 * "auth:o", "capture:o" and "void:o" are the pairs (type, order) and are unique.
 */
module Ledger {
  import opened Common

  datatype TransactionType = Authorization | Capture | Void | Refund

  datatype TransactionStatus = Pending | Posted | Discarded

  datatype AccountType = Buyer | GatewayHolding | PlatformRevenue | SellerPayable

  datatype Account = Account(kind: AccountType, order: nat, currency: string)

  datatype Direction = Debit | Credit

  datatype Transaction = Transaction(order: nat, kind: TransactionType, status: TransactionStatus,
                                     gatewayRef: Option<nat>)

  datatype Entry = Entry(tx: nat, account: Account, direction: Direction, amount: int)

  datatype Books = Books(accounts: set<Account>, txs: seq<Transaction>, entries: seq<Entry>)

  datatype PaymentState = New | Authorized | Captured | Voided | Refunded | InProgress | Failed

  datatype LedgerError = DuplicateKey | BadAmount | InvalidState(state: PaymentState) | NotFound | MissingReference

  const EMPTY: Books := Books({}, [], [])

  // ── Reading ─────────────────────────────────────────────────

  /** Ids of an order's transactions, newest first. */
  function IdsOf(txs: seq<Transaction>, order: nat): (ids: seq<nat>)
    ensures forall i :: 0 <= i < |ids| ==> ids[i] < |txs| && txs[ids[i]].order == order
  {
    if txs == [] then []
    else
      var n := |txs| - 1;
      (if txs[n].order == order then [n] else []) + IdsOf(txs[..n], order)
  }

  /** The list is complete and strictly newest first. */
  lemma {:induction false} IdsComplete(txs: seq<Transaction>, order: nat)
    ensures forall k: nat :: k < |txs| && txs[k].order == order ==> k in IdsOf(txs, order)
    ensures forall i, j :: 0 <= i < j < |IdsOf(txs, order)| ==> IdsOf(txs, order)[i] > IdsOf(txs, order)[j]
  {
    if txs != [] {
      IdsComplete(txs[..|txs| - 1], order);
    }
  }

  function ListTransactions(b: Books, order: nat): seq<Transaction> {
    var ids := IdsOf(b.txs, order);
    seq(|ids|, i requires 0 <= i < |ids| => b.txs[ids[i]])
  }

  predicate HasStatus(list: seq<Transaction>, status: TransactionStatus) {
    exists i :: 0 <= i < |list| && list[i].status == status
  }

  function FirstPosted(list: seq<Transaction>): Option<Transaction> {
    if list == [] then None
    else if list[0].status == Posted then Some(list[0])
    else FirstPosted(list[1..])
  }

  function StateAfter(kind: TransactionType): PaymentState {
    match kind
    case Refund => Refunded
    case Void => Voided
    case Capture => Captured
    case Authorization => Authorized
  }

  /** The scan over an order's transactions, newest first. */
  function DerivePaymentState(list: seq<Transaction>): PaymentState {
    if list == [] then New
    else
      match FirstPosted(list)
      case Some(t) => StateAfter(t.kind)
      case None => if HasStatus(list, Pending) then InProgress else Failed
  }

  function StateOf(b: Books, order: nat): PaymentState {
    DerivePaymentState(ListTransactions(b, order))
  }

  /** The newest posted transaction decides; without one, a pending row wins over discarded ones. */
  lemma {:induction false} NewestPostedDecides(list: seq<Transaction>, k: nat)
    requires k <= |list|
    requires forall i :: 0 <= i < k ==> list[i].status != Posted
    ensures k < |list| && list[k].status == Posted ==>
              match list[k].kind
              case Authorization => DerivePaymentState(list) == Authorized
              case Capture => DerivePaymentState(list) == Captured
              case Void => DerivePaymentState(list) == Voided
              case Refund => DerivePaymentState(list) == Refunded
    ensures k == |list| && k > 0 ==> DerivePaymentState(list) == if HasStatus(list, Pending) then InProgress else Failed
  {
    SkipUnposted(list, k);
    if k == |list| {
      assert list[k..] == [];
    }
  }

  lemma {:induction false} SkipUnposted(list: seq<Transaction>, k: nat)
    requires k <= |list|
    requires forall i :: 0 <= i < k ==> list[i].status != Posted
    ensures FirstPosted(list) == FirstPosted(list[k..])
  {
    if k == 0 {
      assert list[0..] == list;
    } else {
      SkipUnposted(list[1..], k - 1);
      assert list[1..][k - 1..] == list[k..];
    }
  }

  function FirstAmount(entries: seq<Entry>, tx: nat): int {
    if entries == [] then 0
    else if entries[0].tx == tx then entries[0].amount
    else FirstAmount(entries[1..], tx)
  }

  predicate KeyTaken(txs: seq<Transaction>, order: nat, kind: TransactionType) {
    exists i :: 0 <= i < |txs| && txs[i].order == order && txs[i].kind == kind
  }

  datatype PostedAuth = PostedAuth(id: nat, gatewayRef: nat, currency: string, amount: int)

  function FirstPostedAuth(txs: seq<Transaction>, ids: seq<nat>): Option<nat>
    requires forall i :: 0 <= i < |ids| ==> ids[i] < |txs|
  {
    if ids == [] then None
    else if txs[ids[0]].kind == Authorization && txs[ids[0]].status == Posted then Some(ids[0])
    else FirstPostedAuth(txs, ids[1..])
  }

  lemma FirstPostedAuthIsOne(txs: seq<Transaction>, ids: seq<nat>)
    requires forall i :: 0 <= i < |ids| ==> ids[i] < |txs|
    ensures FirstPostedAuth(txs, ids).Some? ==>
              var id := FirstPostedAuth(txs, ids).value;
              id in ids && txs[id].kind == Authorization && txs[id].status == Posted
  {
  }

  /**
   * The authorization that capture and void act on. The stored metadata never holds a currency,
   * so the currency is always the fallback "USD".
   */
  function FindPostedAuthorization(b: Books, order: nat): Result<PostedAuth, LedgerError> {
    if StateOf(b, order) != Authorized then Err(InvalidState(StateOf(b, order)))
    else
      match FirstPostedAuth(b.txs, IdsOf(b.txs, order))
      case None => Err(NotFound)
      case Some(id) =>
        FirstPostedAuthIsOne(b.txs, IdsOf(b.txs, order));
        match b.txs[id].gatewayRef
        case None => Err(MissingReference)
        case Some(g) => Ok(PostedAuth(id, g, "USD", FirstAmount(b.entries, id)))
  }

  // ── Writing ─────────────────────────────────────────────────

  /** One posted transaction with its debit and credit entry. */
  function Post(b: Books, order: nat, kind: TransactionType, gatewayRef: Option<nat>,
                debit: Account, credit: Account, amount: int): Result<Books, LedgerError>
  {
    if KeyTaken(b.txs, order, kind) then Err(DuplicateKey)
    else if amount <= 0 then Err(BadAmount)
    else
      var id := |b.txs|;
      Ok(Books(b.accounts + {debit, credit},
               b.txs + [Transaction(order, kind, Posted, gatewayRef)],
               b.entries + [Entry(id, debit, Debit, amount), Entry(id, credit, Credit, amount)]))
  }

  function Discard(b: Books, id: nat): Books
    requires id < |b.txs|
  {
    b.(txs := b.txs[id := b.txs[id].(status := Discarded)])
  }

  function RecordAuthorization(b: Books, order: nat, amount: int, currency: string,
                               gatewayRef: nat): Result<Books, LedgerError> {
    Post(b, order, Authorization, Some(gatewayRef),
         Account(GatewayHolding, order, currency), Account(Buyer, order, currency), amount)
  }

  function RecordCapture(b: Books, order: nat, currency: string, amount: int,
                         gatewayRef: nat): Result<Books, LedgerError> {
    Post(b, order, Capture, Some(gatewayRef),
         Account(PlatformRevenue, order, currency), Account(GatewayHolding, order, currency), amount)
  }

  function RecordVoid(b: Books, order: nat, authId: nat, currency: string, amount: int): Result<Books, LedgerError>
    requires authId < |b.txs|
  {
    Post(Discard(b, authId), order, Void, None,
         Account(Buyer, order, currency), Account(GatewayHolding, order, currency), amount)
  }

  // ── The shape of every reachable ledger ─────────────────────

  /** Transaction `i` owns exactly the entries at 2i and 2i+1, a debit and a credit of one amount. */
  ghost predicate Paired(b: Books) {
    && |b.entries| == 2 * |b.txs|
    && forall i :: 0 <= i < |b.txs| ==> PairAt(b, i)
  }

  ghost predicate PairAt(b: Books, i: nat)
    requires i < |b.txs| && |b.entries| == 2 * |b.txs|
  {
    var d, c := b.entries[2 * i], b.entries[2 * i + 1];
    && d.tx == i && c.tx == i
    && d.direction == Debit && c.direction == Credit
    && d.amount == c.amount > 0
    && d.account.order == c.account.order == b.txs[i].order
    && d.account.currency == c.account.currency
  }

  function AmountOf(b: Books, i: nat): int
    requires 2 * i < |b.entries|
  {
    b.entries[2 * i].amount
  }

  /** Transaction `i` moves money from `credit` to `debit` accounts of its order in one currency. */
  ghost predicate Moves(b: Books, i: nat, debit: AccountType, credit: AccountType, currency: string)
    requires i < |b.txs| && |b.entries| == 2 * |b.txs|
  {
    && b.entries[2 * i].account == Account(debit, b.txs[i].order, currency)
    && b.entries[2 * i + 1].account == Account(credit, b.txs[i].order, currency)
  }

  ghost predicate IsAuthorization(b: Books, i: nat, status: TransactionStatus)
    requires i < |b.txs| && |b.entries| == 2 * |b.txs|
  {
    && b.txs[i].kind == Authorization && b.txs[i].status == status && b.txs[i].gatewayRef.Some?
    && Moves(b, i, GatewayHolding, Buyer, b.entries[2 * i].account.currency)
  }

  ghost predicate IsCaptureOf(b: Books, i: nat, auth: nat)
    requires i < |b.txs| && auth < |b.txs| && |b.entries| == 2 * |b.txs|
  {
    && b.txs[i].kind == Capture && b.txs[i].status == Posted
    && b.txs[i].gatewayRef == b.txs[auth].gatewayRef
    && Moves(b, i, PlatformRevenue, GatewayHolding, "USD")
    && AmountOf(b, i) == AmountOf(b, auth)
  }

  ghost predicate IsVoidOf(b: Books, i: nat, auth: nat)
    requires i < |b.txs| && auth < |b.txs| && |b.entries| == 2 * |b.txs|
  {
    && b.txs[i].kind == Void && b.txs[i].status == Posted
    && Moves(b, i, Buyer, GatewayHolding, "USD")
    && AmountOf(b, i) == AmountOf(b, auth)
  }

  /** The four ledgers an order can have; `ids` is newest first. */
  ghost predicate ShapeOf(b: Books, ids: seq<nat>)
    requires |b.entries| == 2 * |b.txs| && forall i :: 0 <= i < |ids| ==> ids[i] < |b.txs|
  {
    || ids == []
    || (|ids| == 1 && IsAuthorization(b, ids[0], Posted))
    || (|ids| == 2 && IsAuthorization(b, ids[1], Posted) && IsCaptureOf(b, ids[0], ids[1]))
    || (|ids| == 2 && IsAuthorization(b, ids[1], Discarded) && IsVoidOf(b, ids[0], ids[1]))
  }

  ghost predicate Shaped(b: Books) {
    && Paired(b)
    && forall o: nat :: ShapeOf(b, IdsOf(b.txs, o))
  }

  lemma IdsAppend(txs: seq<Transaction>, t: Transaction, order: nat)
    ensures IdsOf(txs + [t], order) == (if t.order == order then [|txs|] else []) + IdsOf(txs, order)
  {
    assert (txs + [t])[..|txs|] == txs;
  }

  lemma {:induction false} IdsUpdate(txs: seq<Transaction>, k: nat, t: Transaction, order: nat)
    requires k < |txs| && t.order == txs[k].order
    ensures IdsOf(txs[k := t], order) == IdsOf(txs, order)
  {
    var n := |txs| - 1;
    if k == n {
      assert txs[k := t][..n] == txs[..n];
    } else {
      assert txs[k := t][..n] == txs[..n][k := t];
      IdsUpdate(txs[..n], k, t, order);
    }
  }

  /** Only the empty ledger has shape [] : reading the shape back from the derived state. */
  lemma StateTellsShape(b: Books, o: nat)
    requires Shaped(b)
    ensures var ids := IdsOf(b.txs, o);
            match StateOf(b, o)
            case New => ids == []
            case Authorized => |ids| == 1 && IsAuthorization(b, ids[0], Posted)
            case Captured => |ids| == 2 && IsAuthorization(b, ids[1], Posted) && IsCaptureOf(b, ids[0], ids[1])
            case Voided => |ids| == 2 && IsAuthorization(b, ids[1], Discarded) && IsVoidOf(b, ids[0], ids[1])
            case _ => false
  {
    assert ShapeOf(b, IdsOf(b.txs, o));
    assert |ListTransactions(b, o)| == |IdsOf(b.txs, o)|;
  }

  lemma {:induction false} IdIsListed(txs: seq<Transaction>, order: nat, k: nat) returns (i: nat)
    requires k < |txs| && txs[k].order == order
    ensures i < |IdsOf(txs, order)| && IdsOf(txs, order)[i] == k
  {
    var n := |txs| - 1;
    if k == n {
      i := 0;
    } else {
      i := IdIsListed(txs[..n], order, k);
      if txs[n].order == order {
        i := i + 1;
      }
    }
  }

  /** A key is taken exactly when a transaction of that type is in the order's list. */
  lemma KeyTakenInList(b: Books, o: nat, kind: TransactionType)
    ensures KeyTaken(b.txs, o, kind)
       <==> exists i :: 0 <= i < |IdsOf(b.txs, o)| && b.txs[IdsOf(b.txs, o)[i]].kind == kind
  {
    var ids := IdsOf(b.txs, o);
    if k :| 0 <= k < |b.txs| && b.txs[k].order == o && b.txs[k].kind == kind {
      var i := IdIsListed(b.txs, o, k);
      assert b.txs[ids[i]].kind == kind;
    }
    if i :| 0 <= i < |ids| && b.txs[ids[i]].kind == kind {
      var k := ids[i];
      assert 0 <= k < |b.txs| && b.txs[k].order == o && b.txs[k].kind == kind;
    }
  }

  lemma {:induction false} FirstAmountOfPair(b: Books, i: nat, n: nat)
    requires Paired(b) && n <= i < |b.txs|
    ensures FirstAmount(b.entries[2 * n..], i) == AmountOf(b, i)
    decreases i - n
  {
    var rest := b.entries[2 * n..];
    assert PairAt(b, n);
    if n < i {
      assert rest[1..][1..] == b.entries[2 * (n + 1)..];
      FirstAmountOfPair(b, i, n + 1);
    }
  }

  /** In a reachable ledger the lookup succeeds exactly in state Authorized and returns that row. */
  lemma FindInShaped(b: Books, o: nat)
    requires Shaped(b)
    ensures FindPostedAuthorization(b, o).Ok? <==> StateOf(b, o) == Authorized
    ensures FindPostedAuthorization(b, o).Ok? ==>
              var a := FindPostedAuthorization(b, o).value;
              && IdsOf(b.txs, o) == [a.id] && a.amount == AmountOf(b, a.id) && a.currency == "USD"
              && b.txs[a.id].gatewayRef == Some(a.gatewayRef)
  {
    StateTellsShape(b, o);
    if StateOf(b, o) == Authorized {
      var id := IdsOf(b.txs, o)[0];
      FirstAmountOfPair(b, id, 0);
      assert b.entries[0..] == b.entries;
    }
  }

  // ── Preservation ────────────────────────────────────────────

  lemma PostKeepsPairs(b: Books, order: nat, kind: TransactionType, gatewayRef: Option<nat>,
                       debit: Account, credit: Account, amount: int)
    requires Paired(b) && debit.order == credit.order == order && debit.currency == credit.currency
    requires Post(b, order, kind, gatewayRef, debit, credit, amount).Ok?
    ensures Paired(Post(b, order, kind, gatewayRef, debit, credit, amount).value)
  {
    var b' := Post(b, order, kind, gatewayRef, debit, credit, amount).value;
    forall i | 0 <= i < |b'.txs| ensures PairAt(b', i) {
      if i < |b.txs| {
        assert PairAt(b, i);
      }
    }
  }

  /** What a write on order `o` leaves alone: every other order's rows. */
  ghost predicate OnlyTouches(b: Books, b': Books, o: nat) {
    && |b'.txs| == |b.txs| + 1
    && b'.txs[|b.txs|].order == o
    && (forall k: nat :: k < |b.txs| ==> b'.txs[k].order == b.txs[k].order)
    && (forall k: nat :: k < |b.txs| && b.txs[k].order != o ==> b'.txs[k] == b.txs[k])
    && b.entries <= b'.entries
  }

  lemma {:induction false} SameOrdersSameIds(xs: seq<Transaction>, ys: seq<Transaction>, order: nat)
    requires |xs| == |ys| && forall k :: 0 <= k < |xs| ==> xs[k].order == ys[k].order
    ensures IdsOf(xs, order) == IdsOf(ys, order)
  {
    if xs != [] {
      SameOrdersSameIds(xs[..|xs| - 1], ys[..|ys| - 1], order);
    }
  }

  lemma IdsAfterTouch(b: Books, b': Books, o: nat, p: nat)
    requires OnlyTouches(b, b', o)
    ensures IdsOf(b'.txs, p) == (if p == o then [|b.txs|] else []) + IdsOf(b.txs, p)
  {
    var n := |b.txs|;
    assert b'.txs == b'.txs[..n] + [b'.txs[n]];
    IdsAppend(b'.txs[..n], b'.txs[n], p);
    SameOrdersSameIds(b'.txs[..n], b.txs, p);
  }

  /** An untouched transaction reads the same before and after. */
  lemma UntouchedReadsSame(b: Books, b': Books, o: nat, k: nat)
    requires Paired(b) && Paired(b') && OnlyTouches(b, b', o)
    requires k < |b.txs| && b.txs[k].order != o
    ensures b'.txs[k] == b.txs[k]
    ensures b'.entries[2 * k] == b.entries[2 * k] && b'.entries[2 * k + 1] == b.entries[2 * k + 1]
  {
  }

  lemma OtherOrderKeepsState(b: Books, b': Books, o: nat, p: nat)
    requires OnlyTouches(b, b', o) && p != o
    ensures IdsOf(b'.txs, p) == IdsOf(b.txs, p)
    ensures StateOf(b', p) == StateOf(b, p)
  {
    IdsAfterTouch(b, b', o, p);
    assert ListTransactions(b', p) == ListTransactions(b, p);
  }

  lemma OtherOrderKeepsShape(b: Books, b': Books, o: nat, p: nat, ids: seq<nat>)
    requires Paired(b) && Paired(b') && OnlyTouches(b, b', o) && p != o
    requires forall i :: 0 <= i < |ids| ==> ids[i] < |b.txs| && b.txs[ids[i]].order == p
    requires ShapeOf(b, ids)
    ensures ShapeOf(b', ids)
  {
    if |ids| >= 1 {
      UntouchedReadsSame(b, b', o, ids[0]);
    }
    if |ids| >= 2 {
      UntouchedReadsSame(b, b', o, ids[1]);
    }
  }

  lemma TouchKeepsShape(b: Books, b': Books, o: nat)
    requires Shaped(b) && Paired(b') && OnlyTouches(b, b', o)
    requires ShapeOf(b', IdsOf(b'.txs, o))
    ensures Shaped(b')
    ensures forall p: nat :: p != o ==> StateOf(b', p) == StateOf(b, p) && IdsOf(b'.txs, p) == IdsOf(b.txs, p)
  {
    forall p: nat
      ensures ShapeOf(b', IdsOf(b'.txs, p))
      ensures p != o ==> StateOf(b', p) == StateOf(b, p) && IdsOf(b'.txs, p) == IdsOf(b.txs, p)
    {
      if p != o {
        OtherOrderKeepsState(b, b', o, p);
        OtherOrderKeepsShape(b, b', o, p, IdsOf(b.txs, p));
      }
    }
  }

  /** Everything a successful payment operation on `o` leaves behind. */
  ghost predicate Advances(b: Books, b': Books, o: nat, state: PaymentState) {
    && Shaped(b')
    && OnlyTouches(b, b', o)
    && StateOf(b', o) == state
    && IdsOf(b'.txs, o) == [|b.txs|] + IdsOf(b.txs, o)
    && (forall p: nat :: p != o ==> StateOf(b', p) == StateOf(b, p) && IdsOf(b'.txs, p) == IdsOf(b.txs, p))
  }

  /** New -> Authorized: the one posted authorization carries the requested amount and currency. */
  lemma AuthorizationAdvances(b: Books, o: nat, amount: int, currency: string, gatewayRef: nat)
    requires Shaped(b) && StateOf(b, o) == New && amount > 0
    ensures RecordAuthorization(b, o, amount, currency, gatewayRef).Ok?
    ensures var b' := RecordAuthorization(b, o, amount, currency, gatewayRef).value;
            && Advances(b, b', o, Authorized)
            && AmountOf(b', |b.txs|) == amount
            && b'.entries[2 * |b.txs|].account.currency == currency
  {
    StateTellsShape(b, o);
    KeyTakenInList(b, o, Authorization);
    PostKeepsPairs(b, o, Authorization, Some(gatewayRef),
                   Account(GatewayHolding, o, currency), Account(Buyer, o, currency), amount);
    var b' := RecordAuthorization(b, o, amount, currency, gatewayRef).value;
    IdsAfterTouch(b, b', o, o);
    TouchKeepsShape(b, b', o);
    NewestDecides(b', o);
  }

  /** The derived state when the newest transaction of the order is posted. */
  lemma NewestDecides(b: Books, o: nat)
    requires IdsOf(b.txs, o) != [] && b.txs[IdsOf(b.txs, o)[0]].status == Posted
    ensures StateOf(b, o) == StateAfter(b.txs[IdsOf(b.txs, o)[0]].kind)
  {
  }

  lemma CapturePosts(b: Books, o: nat) returns (b': Books)
    requires Shaped(b) && StateOf(b, o) == Authorized
    ensures FindPostedAuthorization(b, o).Ok?
    ensures var a := FindPostedAuthorization(b, o).value;
            RecordCapture(b, o, a.currency, a.amount, a.gatewayRef) == Ok(b')
    ensures Paired(b') && OnlyTouches(b, b', o)
    ensures var ids := IdsOf(b.txs, o);
            && |ids| == 1 && b'.txs[|b.txs|].kind == Capture && b'.txs[|b.txs|].status == Posted
            && ShapeOf(b', [|b.txs|] + ids)
  {
    FindInShaped(b, o);
    StateTellsShape(b, o);
    KeyTakenInList(b, o, Capture);
    var a := FindPostedAuthorization(b, o).value;
    assert PairAt(b, a.id);
    PostKeepsPairs(b, o, Capture, Some(a.gatewayRef),
                   Account(PlatformRevenue, o, "USD"), Account(GatewayHolding, o, "USD"), a.amount);
    b' := RecordCapture(b, o, a.currency, a.amount, a.gatewayRef).value;
  }

  /** Authorized -> Captured, by one posted capture of the authorized amount. */
  lemma CaptureAdvances(b: Books, o: nat)
    requires Shaped(b) && StateOf(b, o) == Authorized
    ensures FindPostedAuthorization(b, o).Ok?
    ensures var a := FindPostedAuthorization(b, o).value;
            var r := RecordCapture(b, o, a.currency, a.amount, a.gatewayRef);
            r.Ok? && Advances(b, r.value, o, Captured)
  {
    var b' := CapturePosts(b, o);
    IdsAfterTouch(b, b', o, o);
    TouchKeepsShape(b, b', o);
    NewestDecides(b', o);
  }

  lemma DiscardKeepsPairs(b: Books, id: nat)
    requires Paired(b) && id < |b.txs|
    ensures Paired(Discard(b, id))
  {
    var d := Discard(b, id);
    forall i | 0 <= i < |d.txs| ensures PairAt(d, i) {
      assert PairAt(b, i);
    }
  }

  /** Authorized -> Voided, by discarding the authorization and posting a void of its amount. */
  lemma VoidAdvances(b: Books, o: nat)
    requires Shaped(b) && StateOf(b, o) == Authorized
    ensures FindPostedAuthorization(b, o).Ok? && FindPostedAuthorization(b, o).value.id < |b.txs|
    ensures var a := FindPostedAuthorization(b, o).value;
            var r := RecordVoid(b, o, a.id, a.currency, a.amount);
            r.Ok? && Advances(b, r.value, o, Voided)
  {
    FindInShaped(b, o);
    StateTellsShape(b, o);
    var a := FindPostedAuthorization(b, o).value;
    assert PairAt(b, a.id);
    DiscardKeepsPairs(b, a.id);
    var d := Discard(b, a.id);
    IdsUpdate(b.txs, a.id, d.txs[a.id], o);
    KeyTakenInList(d, o, Void);
    PostKeepsPairs(d, o, Void, None, Account(Buyer, o, "USD"), Account(GatewayHolding, o, "USD"), a.amount);
    var b' := RecordVoid(b, o, a.id, a.currency, a.amount).value;
    IdsAfterTouch(b, b', o, o);
    TouchKeepsShape(b, b', o);
    NewestDecides(b', o);
  }
}
