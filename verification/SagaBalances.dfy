/** The balances of reachable ledgers: where the accounts and the balances view go wrong, and runs that get there. */
module SagaBalances {
  import opened Orders
  import opened Saga
  import opened SagaCausality
  import opened SagaRuns
  import opened Balances

  function Holding(o: nat, currency: string): Ledger.Account {
    Ledger.Account(Ledger.GatewayHolding, o, currency)
  }

  /** In every run: after capture or void an order's holding accounts are all cleared exactly for USD orders. */
  lemma HoldingClearedInRuns(steps: seq<Step>, o: nat)
    requires Ledger.StateOf(Run(INITIAL, steps).books, o) in {Ledger.Captured, Ledger.Voided}
    ensures var s := Run(INITIAL, steps);
            && o in s.orders
            && ((forall currency :: Balance(s.books, Holding(o, currency)) == 0) <==> s.orders[o].currency == "USD")
  {
    var s := Run(INITIAL, steps);
    RunKeepsCausal(steps);
    assert OrderOk(s, o);
    HoldingClearedIffUsd(s.books, o);
    assert forall currency :: Holding(o, currency) == Ledger.Account(Ledger.GatewayHolding, o, currency);
  }

  /** In every run: the balances view agrees with the entries on an order's accounts exactly if it is not voided. */
  lemma ViewAgreesInRuns(steps: seq<Step>, o: nat)
    ensures var b := Run(INITIAL, steps).books;
            (forall a: Ledger.Account :: a.order == o ==> ViewBalance(b, a) == Balance(b, a))
            <==> Ledger.StateOf(b, o) != Ledger.Voided
  {
    RunKeepsCausal(steps);
    ViewAgreesUnlessVoided(Run(INITIAL, steps).books, o);
  }

  /** The exact holding balances of a paid or undone order, from its own row. */
  lemma HoldingInRuns(steps: seq<Step>, o: nat, currency: string)
    requires Ledger.StateOf(Run(INITIAL, steps).books, o) in {Ledger.Captured, Ledger.Voided}
    ensures var s := Run(INITIAL, steps);
            && o in s.orders
            && Balance(s.books, Holding(o, currency))
               == (if currency == s.orders[o].currency then OrderValue(s.orders[o].items) else 0)
                  - (if currency == "USD" then OrderValue(s.orders[o].items) else 0)
  {
    var s := Run(INITIAL, steps);
    RunKeepsCausal(steps);
    assert OrderOk(s, o);
    HoldingBalance(s.books, o, currency);
  }

  /** For every supported currency but USD a run leaves the captured amount in its holding account, and USD short. */
  lemma ForeignCaptureLeavesBalances(c: string) returns (run: seq<Step>)
    requires c in {"KRW", "EUR", "GBP", "JPY"}
    ensures var b := Run(INITIAL, run).books;
            && Ledger.StateOf(b, 0) == Ledger.Captured
            && Balance(b, Holding(0, c)) > 0 && Balance(b, Holding(0, "USD")) == -Balance(b, Holding(0, c))
  {
    run := CapturedRun(c);
    Values(c);
    HoldingInRuns(run, 0, c);
    HoldingInRuns(run, 0, "USD");
  }

  /** In every supported currency a run ends voided, with the amount missing from the USD holding in the view. */
  lemma VoidedRunMisleadsView(c: string) returns (run: seq<Step>)
    requires c in {"USD", "KRW", "EUR", "GBP", "JPY"}
    ensures var b := Run(INITIAL, run).books;
            Ledger.StateOf(b, 0) == Ledger.Voided && ViewBalance(b, Holding(0, "USD")) < 0
    ensures c == "USD" ==> Balance(Run(INITIAL, run).books, Holding(0, "USD")) == 0
  {
    run := VoidedRun(c);
    RunKeepsCausal(run);
    ViewAgreesUnlessVoided(Run(INITIAL, run).books, 0);
    HoldingInRuns(run, 0, "USD");
  }
}
