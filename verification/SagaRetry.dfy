/** The capture retry chain: bounded, strictly increasing, with one outcome. */
module SagaRetry {
  import opened Common
  import opened Events
  import opened Saga
  import opened SagaHistory
  import opened SagaCausality

  /** Events that ask payment to capture the order's authorization. */
  predicate AsksCapture(e: Event, o: nat) {
    e.order == o && (e.OrderConfirmed? || e.CaptureRetryRequested?)
  }

  /** Events that end a capture chain. */
  predicate EndsCapture(e: Event, o: nat) {
    e.order == o && (e.PaymentCaptured? || (e.PaymentFailed? && e.cause != AuthorizationDeclined))
  }

  /** Number of capture outcomes written for `o`. */
  function Outcomes(log: seq<Event>, o: nat): nat {
    if log == [] then 0 else Outcomes(log[..|log| - 1], o) + if EndsCapture(log[|log| - 1], o) then 1 else 0
  }

  /** Number of capture requests of `o` that payment has not processed. */
  function Open(log: seq<Event>, processed: set<(Group, nat)>, o: nat): nat {
    if log == [] then 0
    else
      var n := |log| - 1;
      Open(log[..n], processed, o) + if AsksCapture(log[n], o) && (PaymentGroup, n) !in processed then 1 else 0
  }

  lemma CountsAppend(log: seq<Event>, e: Event, processed: set<(Group, nat)>, o: nat)
    requires (PaymentGroup, |log|) !in processed
    ensures Outcomes(log + [e], o) == Outcomes(log, o) + if EndsCapture(e, o) then 1 else 0
    ensures Open(log + [e], processed, o) == Open(log, processed, o) + if AsksCapture(e, o) then 1 else 0
  {
    assert (log + [e])[..|log|] == log;
  }

  lemma {:induction false} OpenAfterMark(log: seq<Event>, processed: set<(Group, nat)>, g: Group, i: nat, o: nat)
    requires (g, i) !in processed
    ensures Open(log, processed + {(g, i)}, o) ==
            Open(log, processed, o) - if g == PaymentGroup && i < |log| && AsksCapture(log[i], o) then 1 else 0
  {
    if log != [] {
      OpenAfterMark(log[..|log| - 1], processed, g, i, o);
    }
  }

  /** Deleting a marker reopens a request exactly if it was payment's marker of one. */
  lemma OpenAfterForget(log: seq<Event>, processed: set<(Group, nat)>, g: Group, i: nat, o: nat)
    ensures Open(log, processed - {(g, i)}, o) == Open(log, processed, o)
              + if (g, i) in processed && g == PaymentGroup && i < |log| && AsksCapture(log[i], o) then 1 else 0
  {
    if (g, i) in processed {
      OpenAfterMark(log, processed - {(g, i)}, g, i, o);
      assert processed - {(g, i)} + {(g, i)} == processed;
    } else {
      assert processed - {(g, i)} == processed;
    }
  }

  /** An unprocessed request is counted. */
  lemma {:induction false} OpenCounts(log: seq<Event>, processed: set<(Group, nat)>, i: nat, j: nat, o: nat)
    requires i < |log| && j < |log|
    requires AsksCapture(log[i], o) && (PaymentGroup, i) !in processed
    requires AsksCapture(log[j], o) && (PaymentGroup, j) !in processed
    ensures Open(log, processed, o) >= if i == j then 1 else 2
  {
    var n := |log| - 1;
    if i < n && j < n {
      OpenCounts(log[..n], processed, i, j, o);
    } else if i < n {
      OpenCounts(log[..n], processed, i, i, o);
    } else if j < n {
      OpenCounts(log[..n], processed, j, j, o);
    }
  }

  /** Retry requests of `o` carry 1, 2, 3, ... in log order. */
  predicate Numbered(log: seq<Event>, o: nat) {
    forall i :: 0 <= i < |log| && log[i].CaptureRetryRequested? && log[i].order == o ==>
      log[i].count == Count(log[..i], KRetry, o) + 1 && log[i].count <= Payments.MAX_CAPTURE_RETRIES
  }

  /** An open request is the newest of its chain. */
  predicate OpenIsNewest(s: State, o: nat) {
    forall i :: 0 <= i < |s.log| && AsksCapture(s.log[i], o) && (PaymentGroup, i) !in s.processed ==>
      Count(s.log, KRetry, o) == if s.log[i].CaptureRetryRequested? then s.log[i].count else 0
  }

  ghost predicate ChainOf(s: State, o: nat) {
    && Open(s.log, s.processed, o) + Outcomes(s.log, o) == Count(s.log, KConfirmed, o)
    && Numbered(s.log, o)
    && OpenIsNewest(s, o)
  }

  ghost predicate ChainInv(s: State) {
    && (forall g: Group, i: nat :: (g, i) in s.processed ==> i < |s.log|)
    && (forall o: nat :: ChainOf(s, o))
  }

  lemma NumberedAppend(log: seq<Event>, e: Event, o: nat)
    requires Numbered(log, o)
    requires e.CaptureRetryRequested? && e.order == o ==>
               e.count == Count(log, KRetry, o) + 1 && e.count <= Payments.MAX_CAPTURE_RETRIES
    ensures Numbered(log + [e], o)
  {
    var log' := log + [e];
    forall i | 0 <= i < |log'| && log'[i].CaptureRetryRequested? && log'[i].order == o
      ensures log'[i].count == Count(log'[..i], KRetry, o) + 1 && log'[i].count <= Payments.MAX_CAPTURE_RETRIES
    {
      assert i < |log| ==> log'[..i] == log[..i] && log'[i] == log[i];
      assert i == |log| ==> log'[..i] == log;
    }
  }

  /** An event that neither asks for a capture nor ends one. */
  lemma NeutralAppend(s: State, e: Event, o: nat)
    requires ChainOf(s, o) && (PaymentGroup, |s.log|) !in s.processed
    requires !AsksCapture(e, o) && !EndsCapture(e, o)
    ensures ChainOf(s.(log := s.log + [e]), o)
  {
    CountsAppend(s.log, e, s.processed, o);
    FirstAppend(s.log, e, KConfirmed, o);
    FirstAppend(s.log, e, KRetry, o);
    NumberedAppend(s.log, e, o);
  }

  /** OrderConfirmed opens the chain of an order that had none. */
  lemma ConfirmOpens(s: State, o: nat)
    requires ChainOf(s, o) && (PaymentGroup, |s.log|) !in s.processed
    requires Count(s.log, KConfirmed, o) == 0 && Count(s.log, KRetry, o) == 0
    ensures ChainOf(s.(log := s.log + [OrderConfirmed(o)]), o)
  {
    var e := OrderConfirmed(o);
    CountsAppend(s.log, e, s.processed, o);
    FirstAppend(s.log, e, KConfirmed, o);
    FirstAppend(s.log, e, KRetry, o);
    NumberedAppend(s.log, e, o);
  }

  /** Processing a request replaces it by a successor or by the one outcome. */
  lemma RequestMoves(s: State, i: nat, out: Event, o: nat)
    requires ChainOf(s, o) && (PaymentGroup, |s.log|) !in s.processed && Count(s.log, KConfirmed, o) <= 1
    requires i < |s.log| && AsksCapture(s.log[i], o) && (PaymentGroup, i) !in s.processed
    requires
      var n := if s.log[i].CaptureRetryRequested? then s.log[i].count else 0;
      EndsCapture(out, o) || (n < Payments.MAX_CAPTURE_RETRIES && out == CaptureRetryRequested(o, n + 1))
    ensures ChainOf(s.(log := s.log + [out], processed := s.processed + {(PaymentGroup, i)}), o)
  {
    var s' := s.(log := s.log + [out], processed := s.processed + {(PaymentGroup, i)});
    OpenAfterMark(s.log, s.processed, PaymentGroup, i, o);
    CountsAppend(s.log, out, s'.processed, o);
    FirstAppend(s.log, out, KConfirmed, o);
    FirstAppend(s.log, out, KRetry, o);
    NumberedAppend(s.log, out, o);
    forall j | 0 <= j < |s'.log| && AsksCapture(s'.log[j], o) && (PaymentGroup, j) !in s'.processed
      ensures Count(s'.log, KRetry, o) == if s'.log[j].CaptureRetryRequested? then s'.log[j].count else 0
    {
      if j < |s.log| {
        OpenCounts(s.log, s.processed, i, j, o);
      }
    }
  }

  /** Marking an event of another kind, or for another group, as processed. */
  lemma MarkKeepsChain(s: State, g: Group, i: nat, o: nat)
    requires ChainOf(s, o) && (g, i) !in s.processed
    requires g == PaymentGroup && i < |s.log| ==> !AsksCapture(s.log[i], o)
    ensures ChainOf(s.(processed := s.processed + {(g, i)}), o)
  {
    OpenAfterMark(s.log, s.processed, g, i, o);
  }

  // ── Steps ───────────────────────────────────────────────────

  lemma TablesAreFree(s: State, s': State, o: nat)
    requires ChainOf(s, o) && s'.log == s.log && s'.processed == s.processed
    ensures ChainOf(s', o)
  {
  }

  /** A write of the order service: neutral, or the one OrderConfirmed. */
  lemma OrderWriteKeepsChain(s: State, e: Option<Event>, o: nat)
    requires ChainOf(s, o) && (PaymentGroup, |s.log|) !in s.processed
    requires e.Some? ==> TopicOf(e.value) == OrdersTopic
    requires e == Some(OrderConfirmed(o)) ==> Count(s.log, KConfirmed, o) == 0
    requires Follows(s.log, o, KConfirmed, KRetry)
    ensures ChainOf(s.(log := Append(s.log, e)), o)
  {
    if e == Some(OrderConfirmed(o)) {
      FirstIsFirst(s.log, KConfirmed, o);
      FirstIsFirst(s.log, KRetry, o);
      ConfirmOpens(s, o);
    } else if e.Some? {
      NeutralAppend(s, e.value, o);
    }
  }

  lemma OrderHandlerConfirmsOnce(s: State, e: Event, o: nat)
    requires HistoryInv(s) && OrderService.Handle(s.orders, e).Ok?
    ensures var w := OrderService.Handle(s.orders, e).value;
            && (w.event.Some? ==> TopicOf(w.event.value) == OrdersTopic)
            && (w.event == Some(OrderConfirmed(o)) ==> Count(s.log, KConfirmed, o) == 0)
  {
    var w := OrderService.Handle(s.orders, e).value;
    if w.event == Some(OrderConfirmed(o)) {
      assert HistoryOf(s.orders, s.log, o);
      OrderHandlerKeepsHistory(s.orders, s.log, e, o);
      FirstAppend(s.log, OrderConfirmed(o), KConfirmed, o);
    }
  }

  /** The delivery's marker, if the attempt committed. */
  function Marked(s: State, g: Group, i: nat, a: Answer): State
    requires i < |s.log|
  {
    var (s', committed) := Attempt(s, g, s.log[i], a);
    s'.(processed := if committed then s.processed + {(g, i)} else s.processed)
  }

  lemma OrderKeepsChain(s: State, i: nat, a: Answer, o: nat)
    requires ChainOf(s, o) && (PaymentGroup, |s.log|) !in s.processed && Follows(s.log, o, KConfirmed, KRetry)
    requires i < |s.log| && (OrderGroup, i) !in s.processed
    requires OrderService.Handle(s.orders, s.log[i]).Ok? ==>
               var w := OrderService.Handle(s.orders, s.log[i]).value;
               && (w.event.Some? ==> TopicOf(w.event.value) == OrdersTopic)
               && (w.event == Some(OrderConfirmed(o)) ==> Count(s.log, KConfirmed, o) == 0)
    ensures ChainOf(Marked(s, OrderGroup, i, a), o)
  {
    if OrderService.Handle(s.orders, s.log[i]).Ok? {
      var w := OrderService.Handle(s.orders, s.log[i]).value;
      OrderWriteKeepsChain(s, w.event, o);
      var s1 := s.(log := Append(s.log, w.event));
      MarkKeepsChain(s1, OrderGroup, i, o);
      TablesAreFree(s1.(processed := s1.processed + {(OrderGroup, i)}), Marked(s, OrderGroup, i, a), o);
    }
  }

  lemma CatalogKeepsChain(s: State, i: nat, a: Answer, o: nat)
    requires ChainOf(s, o) && (PaymentGroup, |s.log|) !in s.processed
    requires i < |s.log| && (CatalogGroup, i) !in s.processed
    ensures ChainOf(Marked(s, CatalogGroup, i, a), o)
  {
    var w := CatalogService.Handle(s.stock, s.log[i], a.db);
    var s1 := s.(log := Append(s.log, w.event));
    if w.event.Some? {
      NeutralAppend(s, w.event.value, o);
    }
    MarkKeepsChain(s1, CatalogGroup, i, o);
    TablesAreFree(if w.committed then s1.(processed := s1.processed + {(CatalogGroup, i)}) else s1,
                  Marked(s, CatalogGroup, i, a), o);
  }

  lemma AttemptKeepsChain(s: State, g: Group, i: nat, a: Answer, o: nat)
    requires HistoryInv(s) && CausalInv(s) && ChainInv(s)
    requires i < |s.log| && (g, i) !in s.processed
    ensures ChainOf(Marked(s, g, i, a), o)
  {
    assert ChainOf(s, o) && OrderOk(s, o) && HistoryOf(s.orders, s.log, o);
    match g {
      case OrderGroup =>
        if OrderService.Handle(s.orders, s.log[i]).Ok? {
          OrderHandlerConfirmsOnce(s, s.log[i], o);
        }
        OrderKeepsChain(s, i, a, o);
      case CatalogGroup => CatalogKeepsChain(s, i, a, o);
      case PaymentGroup =>
        if Payments.Handle(s.books, s.log[i], a.gateway).Ok? {
          PaymentKeepsChain(s, i, a.gateway, o);
          var w := Payments.Handle(s.books, s.log[i], a.gateway).value;
          TablesAreFree(s.(log := Append(s.log, w.event), processed := s.processed + {(PaymentGroup, i)}),
                        Marked(s, g, i, a), o);
        }
    }
  }

  lemma PaymentKeepsChain(s: State, i: nat, g: Payments.GatewayAnswer, o: nat)
    requires ChainOf(s, o) && (PaymentGroup, |s.log|) !in s.processed && Count(s.log, KConfirmed, o) <= 1
    requires i < |s.log| && (PaymentGroup, i) !in s.processed && Payments.Handle(s.books, s.log[i], g).Ok?
    ensures var w := Payments.Handle(s.books, s.log[i], g).value;
            ChainOf(s.(log := Append(s.log, w.event), processed := s.processed + {(PaymentGroup, i)}), o)
  {
    var w := Payments.Handle(s.books, s.log[i], g).value;
    if w.event.Some? {
      Payments.WrittenFor(s.books, s.log[i], g);
    }
    if AsksCapture(s.log[i], o) {
      RequestMoves(s, i, w.event.value, o);
    } else {
      if w.event.Some? {
        NeutralAppend(s, w.event.value, o);
      }
      MarkKeepsChain(s.(log := Append(s.log, w.event)), PaymentGroup, i, o);
    }
  }

  lemma DeliverKeepsChain(s: State, g: Group, i: nat, a: Answer, o: nat)
    requires HistoryInv(s) && CausalInv(s) && ChainInv(s)
    ensures ChainOf(DeliverTo(s, g, i, a), o)
  {
    var s' := DeliverTo(s, g, i, a);
    if s' != s {
      AttemptKeepsChain(s, g, i, a, o);
      TablesAreFree(Marked(s, g, i, a), s', o);
    } else {
      assert ChainOf(s, o);
    }
  }

  lemma OrderStepKeepsChain(s: State, s': State, out: Option<Event>, o: nat)
    requires ChainOf(s, o) && OrderOk(s, o) && (PaymentGroup, |s.log|) !in s.processed
    requires out.Some? && (out.value.OrderCreated? || out.value.OrderCancelled?)
    requires s'.log == Append(s.log, out) && s'.processed == s.processed
    ensures ChainOf(s', o)
  {
    OrderWriteKeepsChain(s, out, o);
    TablesAreFree(s.(log := Append(s.log, out)), s', o);
  }

  lemma ForgetKeepsChain(s: State, g: Group, i: nat, o: nat)
    requires ChainOf(s, o) && !(g == PaymentGroup && i < |s.log| && AsksCapture(s.log[i], o))
    ensures ChainOf(s.(processed := s.processed - {(g, i)}), o)
  {
    OpenAfterForget(s.log, s.processed, g, i, o);
  }

  lemma OtherStepKeepsChain(s: State, step: Step, o: nat)
    requires ChainOf(s, o) && OrderOk(s, o) && (PaymentGroup, |s.log|) !in s.processed
    requires !step.Deliver? && MarkerLives(s, step)
    ensures ChainOf(Apply(s, step), o)
  {
    var s' := Apply(s, step);
    match step {
      case CreateOrder(id, items, currency) =>
        var r := OrderService.Create(s.orders, id, items, currency);
        if r.Ok? {
          OrderStepKeepsChain(s, s', r.value.event, o);
        }
      case BuyerCancel(id) =>
        if OrderService.Cancel(s.orders, id).Ok? {
          OrderStepKeepsChain(s, s', Some(OrderCancelled(id)), o);
        }
      case TimeOut(id) => NeutralAppend(s, PaymentTimedOut(id), o);
      case ForgetMarker(g, i) => ForgetKeepsChain(s, g, i, o);
      case _ => TablesAreFree(s, s', o);
    }
  }

  /** The step deletes no marker that payment set on a capture request. */
  predicate MarkerLives(s: State, step: Step) {
    step.ForgetMarker? && step.group == PaymentGroup && step.event < |s.log| ==>
      !AsksCapture(s.log[step.event], s.log[step.event].order)
  }

  lemma StepKeepsChain(s: State, step: Step)
    requires HistoryInv(s) && CausalInv(s) && ChainInv(s) && MarkerLives(s, step)
    ensures ChainInv(Apply(s, step))
  {
    forall o: nat ensures ChainOf(Apply(s, step), o) {
      assert ChainOf(s, o) && OrderOk(s, o);
      match step {
        case Deliver(g, i, a) => DeliverKeepsChain(s, g, i, a, o);
        case _ => OtherStepKeepsChain(s, step, o);
      }
    }
  }

  /** No capture request loses its marker. */
  ghost predicate MarkersLive(steps: seq<Step>) {
    forall n :: 0 <= n < |steps| ==> MarkerLives(Run(INITIAL, steps[..n]), steps[n])
  }

  lemma {:induction false} RunKeepsChain(steps: seq<Step>)
    requires MarkersLive(steps)
    ensures ChainInv(Run(INITIAL, steps))
  {
    if steps != [] {
      var front := steps[..|steps| - 1];
      assert forall n :: 0 <= n < |front| ==> front[..n] == steps[..n];
      assert MarkersLive(front);
      RunKeepsChain(front);
      RunKeepsHistory(front);
      RunKeepsCausal(front);
      StepKeepsChain(Run(INITIAL, front), steps[|steps| - 1]);
    }
  }

  /** A numbered log has no more retries than the limit. */
  lemma {:induction false} RetriesBounded(log: seq<Event>, o: nat)
    requires Numbered(log, o)
    ensures Count(log, KRetry, o) <= Payments.MAX_CAPTURE_RETRIES
  {
    if log != [] {
      var n := |log| - 1;
      var front := log[..n];
      assert Numbered(front, o) by {
        forall i | 0 <= i < |front| && front[i].CaptureRetryRequested? && front[i].order == o
          ensures front[i].count == Count(front[..i], KRetry, o) + 1 && front[i].count <= Payments.MAX_CAPTURE_RETRIES
        {
          assert front[..i] == log[..i];
        }
      }
      RetriesBounded(front, o);
    }
  }

  /**
   * For every sequence of gateway answers and every interleaving in which no capture request loses its marker: an
   * order has at most ten retry requests, numbered 1, 2, 3, ... as written; open requests plus
   * outcomes are at most one; and once every request has been processed a confirmed order has exactly
   * one of PaymentCaptured and a capture-related PaymentFailed.
   */
  lemma RetryChain(steps: seq<Step>, o: nat)
    requires MarkersLive(steps)
    ensures var s := Run(INITIAL, steps);
            && Count(s.log, KRetry, o) <= Payments.MAX_CAPTURE_RETRIES
            && (forall i :: 0 <= i < |s.log| && s.log[i].CaptureRetryRequested? && s.log[i].order == o ==>
                  s.log[i].count == Count(s.log[..i], KRetry, o) + 1)
            && Open(s.log, s.processed, o) + Outcomes(s.log, o) == Count(s.log, KConfirmed, o) <= 1
            && (Open(s.log, s.processed, o) == 0 && Count(s.log, KConfirmed, o) == 1 ==> Outcomes(s.log, o) == 1)
  {
    var s := Run(INITIAL, steps);
    RunKeepsChain(steps);
    RunKeepsHistory(steps);
    assert ChainOf(s, o) && HistoryOf(s.orders, s.log, o);
    RetriesBounded(s.log, o);
  }

  /** The condition is exact: deleting a marker keeps the chain balanced if and only if it is not such a marker. */
  lemma ForgettingBreaksChain(steps: seq<Step>, g: Group, i: nat)
    requires MarkersLive(steps) && (g, i) in Run(INITIAL, steps).processed && i < |Run(INITIAL, steps).log|
    ensures var s := Run(INITIAL, steps);
            var s' := Apply(s, ForgetMarker(g, i));
            var o := s.log[i].order;
            Open(s'.log, s'.processed, o) + Outcomes(s'.log, o) == Count(s'.log, KConfirmed, o)
            <==> !(g == PaymentGroup && AsksCapture(s.log[i], o))
  {
    RunKeepsChain(steps);
    ForgettingUnbalances(Run(INITIAL, steps), g, i);
  }

  lemma ForgettingUnbalances(s: State, g: Group, i: nat)
    requires i < |s.log| && (g, i) in s.processed && ChainOf(s, s.log[i].order)
    ensures var s' := Apply(s, ForgetMarker(g, i));
            var o := s.log[i].order;
            Open(s'.log, s'.processed, o) + Outcomes(s'.log, o) == Count(s'.log, KConfirmed, o)
            <==> !(g == PaymentGroup && AsksCapture(s.log[i], o))
  {
    OpenAfterForget(s.log, s.processed, g, i, s.log[i].order);
  }
}
