/** Account balances: what the entries of a reachable ledger add up to. */
module Balances {
  import opened Ledger

  /**
   * What one entry adds to the net debit of account `a`. With `postedOnly` an entry counts only while
   * its transaction is posted, as in the account_balances view.
   */
  function Contribution(e: Entry, txs: seq<Transaction>, a: Account, postedOnly: bool): int {
    if e.account != a || (postedOnly && (e.tx >= |txs| || txs[e.tx].status != Posted)) then 0
    else if e.direction == Debit then e.amount
    else -e.amount
  }

  /** Net debit of `a` over all entries, or over the entries of posted transactions. */
  function NetDebit(entries: seq<Entry>, txs: seq<Transaction>, a: Account, postedOnly: bool): int {
    if entries == [] then 0
    else
      NetDebit(entries[..|entries| - 1], txs, a, postedOnly)
      + Contribution(entries[|entries| - 1], txs, a, postedOnly)
  }

  function Side(e: Entry, txs: seq<Transaction>, currency: string, direction: Direction, postedOnly: bool): int {
    if e.account.currency != currency || e.direction != direction
       || (postedOnly && (e.tx >= |txs| || txs[e.tx].status != Posted)) then 0
    else e.amount
  }

  /** Total of one side of the books in one currency. */
  function Total(entries: seq<Entry>, txs: seq<Transaction>, currency: string, direction: Direction,
                 postedOnly: bool): int {
    if entries == [] then 0
    else
      Total(entries[..|entries| - 1], txs, currency, direction, postedOnly)
      + Side(entries[|entries| - 1], txs, currency, direction, postedOnly)
  }

  /** Double entry: in every currency debits equal credits, over all entries and over posted ones. */
  lemma DebitsEqualCredits(b: Books, currency: string, postedOnly: bool)
    requires Paired(b)
    ensures Total(b.entries, b.txs, currency, Debit, postedOnly)
         == Total(b.entries, b.txs, currency, Credit, postedOnly)
  {
    PrefixBalances(b, |b.txs|, currency, postedOnly);
    assert b.entries[..2 * |b.txs|] == b.entries;
  }

  lemma {:induction false} PrefixBalances(b: Books, n: nat, currency: string, postedOnly: bool)
    requires Paired(b) && n <= |b.txs|
    ensures Total(b.entries[..2 * n], b.txs, currency, Debit, postedOnly)
         == Total(b.entries[..2 * n], b.txs, currency, Credit, postedOnly)
  {
    if n > 0 {
      PrefixBalances(b, n - 1, currency, postedOnly);
      assert PairAt(b, n - 1);
      var upTo := b.entries[..2 * n];
      assert upTo[..2 * n - 1] == b.entries[..2 * n - 1];
      assert b.entries[..2 * n - 1][..2 * n - 2] == b.entries[..2 * (n - 1)];
    }
  }

  /** What transaction `id` adds to account `a`. */
  function TxNet(b: Books, id: nat, a: Account, postedOnly: bool): int
    requires id < |b.txs| && |b.entries| == 2 * |b.txs|
  {
    Contribution(b.entries[2 * id], b.txs, a, postedOnly) + Contribution(b.entries[2 * id + 1], b.txs, a, postedOnly)
  }

  function SumTxNet(b: Books, ids: seq<nat>, a: Account, postedOnly: bool): int
    requires |b.entries| == 2 * |b.txs| && forall i :: 0 <= i < |ids| ==> ids[i] < |b.txs|
  {
    if ids == [] then 0 else TxNet(b, ids[0], a, postedOnly) + SumTxNet(b, ids[1..], a, postedOnly)
  }

  lemma NextPair(b: Books, n: nat, a: Account, postedOnly: bool)
    requires Paired(b) && 0 < n <= |b.txs|
    ensures NetDebit(b.entries[..2 * n], b.txs, a, postedOnly)
         == NetDebit(b.entries[..2 * (n - 1)], b.txs, a, postedOnly) + TxNet(b, n - 1, a, postedOnly)
  {
    var upTo := b.entries[..2 * n];
    assert upTo[..2 * n - 1] == b.entries[..2 * n - 1];
    assert b.entries[..2 * n - 1][..2 * n - 2] == b.entries[..2 * (n - 1)];
  }

  lemma ForeignPairIsZero(b: Books, id: nat, a: Account, postedOnly: bool)
    requires Paired(b) && id < |b.txs| && b.txs[id].order != a.order
    ensures TxNet(b, id, a, postedOnly) == 0
  {
    assert PairAt(b, id);
  }

  /** What the first `n` transactions add to account `a`. */
  function SumOfFirst(b: Books, n: nat, a: Account, postedOnly: bool): int
    requires n <= |b.txs| && |b.entries| == 2 * |b.txs|
  {
    if n == 0 then 0 else SumOfFirst(b, n - 1, a, postedOnly) + TxNet(b, n - 1, a, postedOnly)
  }

  lemma {:induction false} BalanceByPairs(b: Books, n: nat, a: Account, postedOnly: bool)
    requires Paired(b) && n <= |b.txs|
    ensures NetDebit(b.entries[..2 * n], b.txs, a, postedOnly) == SumOfFirst(b, n, a, postedOnly)
  {
    if n > 0 {
      BalanceByPairs(b, n - 1, a, postedOnly);
      NextPair(b, n, a, postedOnly);
    }
  }

  /** An account's balance is made by the transactions of its own order only. */
  lemma {:induction false} BalanceByTransactions(b: Books, n: nat, a: Account, postedOnly: bool)
    requires Paired(b) && n <= |b.txs|
    ensures SumOfFirst(b, n, a, postedOnly) == SumTxNet(b, IdsOf(b.txs[..n], a.order), a, postedOnly)
  {
    if n > 0 {
      var m := n - 1;
      BalanceByTransactions(b, m, a, postedOnly);
      IdsOfPrefix(b.txs, m, a.order);
      SumOfOneMore(b, m, IdsOf(b.txs[..m], a.order), IdsOf(b.txs[..n], a.order), a, postedOnly);
    }
  }

  lemma IdsOfPrefix(txs: seq<Transaction>, m: nat, order: nat)
    requires m < |txs|
    ensures IdsOf(txs[..m + 1], order) == (if txs[m].order == order then [m] else []) + IdsOf(txs[..m], order)
  {
    assert txs[..m + 1] == txs[..m] + [txs[m]];
    IdsAppend(txs[..m], txs[m], order);
  }

  lemma SumOfOneMore(b: Books, id: nat, ids: seq<nat>, more: seq<nat>, a: Account, postedOnly: bool)
    requires Paired(b) && id < |b.txs| && forall i :: 0 <= i < |ids| ==> ids[i] < |b.txs|
    requires more == (if b.txs[id].order == a.order then [id] else []) + ids
    ensures SumTxNet(b, more, a, postedOnly) == TxNet(b, id, a, postedOnly) + SumTxNet(b, ids, a, postedOnly)
  {
    if b.txs[id].order == a.order {
      assert more[1..] == ids;
    } else {
      ForeignPairIsZero(b, id, a, postedOnly);
      assert more == ids;
    }
  }

  function Balance(b: Books, a: Account): int {
    NetDebit(b.entries, b.txs, a, false)
  }

  /** The account_balances view, as a net debit. */
  function ViewBalance(b: Books, a: Account): int {
    NetDebit(b.entries, b.txs, a, true)
  }

  lemma BalanceOfOrder(b: Books, a: Account, postedOnly: bool)
    requires Paired(b)
    ensures NetDebit(b.entries, b.txs, a, postedOnly) == SumTxNet(b, IdsOf(b.txs, a.order), a, postedOnly)
  {
    BalanceByPairs(b, |b.txs|, a, postedOnly);
    BalanceByTransactions(b, |b.txs|, a, postedOnly);
    assert b.txs[..|b.txs|] == b.txs && b.entries[..2 * |b.txs|] == b.entries;
  }

  lemma SumOfTwo(b: Books, ids: seq<nat>, a: Account, postedOnly: bool)
    requires |b.entries| == 2 * |b.txs| && |ids| <= 2 && forall i :: 0 <= i < |ids| ==> ids[i] < |b.txs|
    ensures |ids| == 1 ==> SumTxNet(b, ids, a, postedOnly) == TxNet(b, ids[0], a, postedOnly)
    ensures |ids| == 2 ==> SumTxNet(b, ids, a, postedOnly)
                           == TxNet(b, ids[0], a, postedOnly) + TxNet(b, ids[1], a, postedOnly)
  {
    if |ids| == 2 {
      assert ids[1..] == [ids[1]];
    }
  }

  /** The currency and amount of an order's authorization, if it has one. */
  function AuthCurrency(b: Books, order: nat): string {
    var ids := IdsOf(b.txs, order);
    if ids == [] || 2 * ids[|ids| - 1] >= |b.entries| then "" else b.entries[2 * ids[|ids| - 1]].account.currency
  }

  function AuthAmount(b: Books, order: nat): int {
    var ids := IdsOf(b.txs, order);
    if ids == [] || 2 * ids[|ids| - 1] >= |b.entries| then 0 else b.entries[2 * ids[|ids| - 1]].amount
  }

  /**
   * Every holding balance, in every currency. The authorization puts the amount into the holding
   * account of the order's currency; capture and void always take it from the USD one.
   */
  lemma HoldingBalance(b: Books, order: nat, currency: string)
    requires Shaped(b)
    ensures Balance(b, Account(GatewayHolding, order, currency)) ==
            (if StateOf(b, order) != New && currency == AuthCurrency(b, order) then AuthAmount(b, order) else 0)
            - (if (StateOf(b, order) == Captured || StateOf(b, order) == Voided) && currency == "USD"
               then AuthAmount(b, order) else 0)
  {
    var a := Account(GatewayHolding, order, currency);
    StateTellsShape(b, order);
    BalanceOfOrder(b, a, false);
    SumOfTwo(b, IdsOf(b.txs, order), a, false);
    PairsOfOrder(b, order);
  }

  lemma PairsOfOrder(b: Books, order: nat)
    requires Paired(b)
    ensures forall i :: 0 <= i < |IdsOf(b.txs, order)| ==> PairAt(b, IdsOf(b.txs, order)[i])
  {
  }

  /**
   * Money conservation for orders authorized in USD: the gateway holds the authorized amount exactly
   * while the payment is Authorized, and nothing otherwise.
   */
  lemma UsdHolding(b: Books, order: nat)
    requires Shaped(b) && (StateOf(b, order) != New ==> AuthCurrency(b, order) == "USD")
    ensures Balance(b, Account(GatewayHolding, order, "USD"))
         == if StateOf(b, order) == Authorized then AuthAmount(b, order) else 0
  {
    HoldingBalance(b, order, "USD");
  }

  /** For an order with an authorization the holding accounts are cleared after capture or void exactly for USD. */
  lemma HoldingClearedIffUsd(b: Books, order: nat)
    requires Shaped(b) && (StateOf(b, order) == Captured || StateOf(b, order) == Voided)
    ensures (forall currency :: Balance(b, Account(GatewayHolding, order, currency)) == 0)
            <==> AuthCurrency(b, order) == "USD"
  {
    StateTellsShape(b, order);
    PairsOfOrder(b, order);
    forall currency
      ensures Balance(b, Account(GatewayHolding, order, currency)) ==
              (if currency == AuthCurrency(b, order) then AuthAmount(b, order) else 0)
              - (if currency == "USD" then AuthAmount(b, order) else 0)
    {
      HoldingBalance(b, order, currency);
    }
  }

  /**
   * The view drops the entries of the discarded authorization but keeps those of the posted void, so
   * it disagrees with the entries exactly for voided payments: it then shows the amount missing.
   */
  lemma ViewAgreesUnlessVoided(b: Books, order: nat)
    requires Shaped(b)
    ensures (forall a: Account :: a.order == order ==> ViewBalance(b, a) == Balance(b, a))
            <==> StateOf(b, order) != Voided
    ensures StateOf(b, order) == Voided ==>
              ViewBalance(b, Account(GatewayHolding, order, "USD")) == -AuthAmount(b, order) < 0
  {
    StateTellsShape(b, order);
    PairsOfOrder(b, order);
    if StateOf(b, order) == Voided {
      var a := Account(GatewayHolding, order, "USD");
      BalanceOfOrder(b, a, true);
      SumOfTwo(b, IdsOf(b.txs, order), a, true);
      HoldingBalance(b, order, "USD");
      VoidedHoldingDiffers(b, order);
    } else {
      forall a: Account | a.order == order ensures ViewBalance(b, a) == Balance(b, a) {
        BalanceOfOrder(b, a, true);
        BalanceOfOrder(b, a, false);
        SumOfTwo(b, IdsOf(b.txs, order), a, true);
        SumOfTwo(b, IdsOf(b.txs, order), a, false);
      }
    }
  }

  /** In a voided ledger some account of the order shows a different balance in the view. */
  lemma VoidedHoldingDiffers(b: Books, order: nat)
    requires Shaped(b) && StateOf(b, order) == Voided
    ensures exists a: Account :: a.order == order && ViewBalance(b, a) != Balance(b, a)
  {
    StateTellsShape(b, order);
    PairsOfOrder(b, order);
    var a := Account(GatewayHolding, order, AuthCurrency(b, order));
    BalanceOfOrder(b, a, true);
    BalanceOfOrder(b, a, false);
    SumOfTwo(b, IdsOf(b.txs, order), a, true);
    SumOfTwo(b, IdsOf(b.txs, order), a, false);
    assert ViewBalance(b, a) != Balance(b, a);
  }
}
