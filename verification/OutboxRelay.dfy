/** The relay program: claim a batch, then dedup check, publish and mark, event by event. */
module OutboxRelay {
  import opened Common
  import opened Outbox

  /** What the environment answers while one event is relayed. */
  datatype Answer = Answer(cacheUp: bool, accepted: bool, appended: bool, dbUp: bool)

  /** The shared table, broker log and cache. `facts` and `relays` exist for the specification. */
  class World {
    var now: nat
    var rows: map<nat, Row>
    var log: seq<nat>
    var dedup: set<nat>
    ghost var facts: map<nat, Fact>
    ghost var relays: map<nat, Relay>

    ghost function State(): Outbox.State
      reads this
    {
      Outbox.State(now, rows, facts, log, dedup, relays)
    }

    constructor ()
      ensures State() == INITIAL
    {
      now, rows, log, dedup := 0, map[], [], {};
      facts, relays := map[], map[];
    }

    /** Lock each picked row for the relay, one by one. */
    method ClaimBatch(relay: nat, picks: seq<nat>)
      requires CanClaim(State(), relay, picks)
      modifies this`rows, this`relays
      ensures State() == Apply(old(State()), Claim(relay, picks))
    {
      var n := 0;
      while n < |picks|
        invariant 0 <= n <= |picks|
        invariant relays == old(relays)
        invariant rows == LockAll(old(rows), picks[..n], relay, now)
      {
        var id := picks[n];
        assert Eligible(old(rows), now, id);
        rows := rows[id := rows[id].(lockedBy := Some(relay), lockedAt := now)];
        assert picks[..n + 1] == picks[..n] + [id];
        n := n + 1;
      }
      assert picks[..|picks|] == picks;
      relays := relays[relay := Relay(picks, Ready)];
    }

    method MarkRowDone(id: nat, delete: bool, dbUp: bool)
      modifies this`rows
      ensures rows == if !dbUp then old(rows)
                      else if delete then DeletePublished(old(rows), id)
                      else Outbox.MarkPublished(old(rows), id)
    {
      if dbUp {
        if delete {
          rows := rows - {id};
        } else if id in rows && rows[id].status != Failed {
          rows := rows[id := rows[id].(status := Published, lockedBy := None)];
        }
      }
    }

    method MarkRowRetry(id: nat, dbUp: bool)
      modifies this`rows
      ensures rows == if dbUp then MarkRetryOrFailed(old(rows), id, now) else old(rows)
    {
      if dbUp {
        rows := MarkRetryOrFailed(rows, id, now);
      }
    }

    /**
     * Relay one claimed event: a dedup hit and a mark, or publish, cache and mark, or a refused publish and
     * a retry mark.
     */
    method RelayEvent(relay: nat, id: nat, delete: bool, a: Answer)
      requires At(State(), relay, Ready) && Head(State(), relay) == id
      modifies this
      ensures State() == AfterEvent(old(State()), relay, delete, a)
    {
      if a.cacheUp && id in dedup {
        MarkRowDone(id, delete, a.dbUp);
      } else if a.accepted {
        log := log + [id];
        if a.cacheUp {
          dedup := dedup + {id};
        }
        MarkRowDone(id, delete, a.dbUp);
      } else {
        if a.appended {
          log := log + [id];
        }
        MarkRowRetry(id, a.dbUp);
      }
      relays := Moved(State(), relay);
    }

    /** Relay a claimed batch: a database error on one event does not stop the others. */
    method RelayBatch(relay: nat, picks: seq<nat>, delete: bool, answers: seq<Answer>)
      requires RelayOf(State(), relay) == Relay(picks, Ready) && |answers| == |picks|
      modifies this
      ensures State() == AfterBatch(old(State()), relay, delete, answers)
    {
      var n := 0;
      while n < |picks|
        invariant 0 <= n <= |picks|
        invariant State() == AfterBatch(old(State()), relay, delete, answers[..n])
      {
        assert answers[..n + 1][..n] == answers[..n];
        RelayEvent(relay, picks[n], delete, answers[n]);
        n := n + 1;
      }
      assert answers[..|picks|] == answers;
    }

    /**
     * Claim and relay a batch. The whole method is a run of the relay's own steps, so everything proved of
     * runs holds of it; `BatchDecides` says which rows and log it leaves.
     */
    method ProcessBatch(relay: nat, picks: seq<nat>, delete: bool, answers: seq<Answer>)
      returns (count: nat, ghost trace: seq<Step>)
      requires CanClaim(State(), relay, picks) && |answers| == |picks|
      modifies this
      ensures State() == Run(old(State()), trace)
      ensures Own(trace, relay)
      ensures count == |picks|
      ensures var s1 := Apply(old(State()), Claim(relay, picks));
              State() == AfterBatch(s1, relay, delete, answers) && RelayOf(State(), relay) == Relay([], Ready)
    {
      ClaimBatch(relay, picks);
      ghost var claim := [Claim(relay, picks)];
      RunOne(old(State()), claim[0]);
      ghost var s1 := State();
      RelayBatch(relay, picks, delete, answers);
      ghost var rest := BatchTrace(s1, relay, delete, answers);
      TraceJoins(old(State()), claim, rest, relay);
      return |picks|, claim + rest;
    }
  }

  /** Published just now, or known to be published before. */
  predicate Succeeds(a: Answer, id: nat, dedup: set<nat>) {
    a.accepted || (a.cacheUp && id in dedup)
  }

  /** Whether relaying the event puts it on the broker's log. */
  predicate Publishes(a: Answer, id: nat, dedup: set<nat>) {
    (a.accepted || a.appended) && !(a.cacheUp && id in dedup)
  }

  /** Relaying the first event of a relay's batch, by what the environment answers. */
  function AfterEvent(s: Outbox.State, relay: nat, delete: bool, a: Answer): Outbox.State
    requires RelayOf(s, relay).batch != []
  {
    var id := Head(s, relay);
    s.(rows := RowsAfter(s.rows, id, s.now, delete, Succeeds(a, id, s.dedup), a.dbUp),
       log := if Publishes(a, id, s.dedup) then s.log + [id] else s.log,
       dedup := if a.cacheUp && a.accepted then s.dedup + {id} else s.dedup,
       relays := Moved(s, relay))
  }

  function AfterBatch(s: Outbox.State, relay: nat, delete: bool, answers: seq<Answer>): (s': Outbox.State)
    requires |answers| <= |RelayOf(s, relay).batch| && RelayOf(s, relay).stage == Ready
    ensures RelayOf(s', relay) == Relay(RelayOf(s, relay).batch[|answers|..], Ready)
    ensures s'.now == s.now && s'.facts == s.facts
  {
    if answers == [] then s
    else
      var n := |answers| - 1;
      AfterEvent(AfterBatch(s, relay, delete, answers[..n]), relay, delete, answers[n])
  }

  /** The events of a batch that reach the broker, in batch order. */
  function SentBy(picks: seq<nat>, answers: seq<Answer>, dedup: set<nat>): seq<nat>
    requires |picks| == |answers|
  {
    if picks == [] then []
    else
      var n := |picks| - 1;
      SentBy(picks[..n], answers[..n], dedup) + if Publishes(answers[n], picks[n], dedup) then [picks[n]] else []
  }

  /** The table after one event. */
  function RowsAfter(rows: map<nat, Row>, id: nat, now: nat, delete: bool, success: bool, dbUp: bool): map<nat, Row> {
    if success then DoneRows(rows, id, delete, dbUp)
    else if dbUp then MarkRetryOrFailed(rows, id, now)
    else rows
  }

  /** The table after a batch. */
  function BatchRows(
    rows: map<nat, Row>, picks: seq<nat>, answers: seq<Answer>, dedup: set<nat>, now: nat, delete: bool): map<nat, Row>
    requires |picks| == |answers|
  {
    if picks == [] then rows
    else
      var n := |picks| - 1;
      RowsAfter(BatchRows(rows, picks[..n], answers[..n], dedup, now, delete), picks[n], now, delete,
                Succeeds(answers[n], picks[n], dedup), answers[n].dbUp)
  }

  /**
   * What relaying leaves of a pending row: untouched while the database is down; deleted or published after
   * a success; after a refused publish one retry more, and failed exactly when that was the last.
   */
  predicate Relayed(before: Row, rows: map<nat, Row>, id: nat, now: nat, delete: bool, success: bool, dbUp: bool) {
    if !dbUp then id in rows && rows[id] == before
    else if success then
      if delete then id !in rows else id in rows && rows[id] == before.(status := Published, lockedBy := None)
    else
      && id in rows && rows[id].retryCount == before.retryCount + 1 && rows[id].lockedBy == None
      && (rows[id].status == Failed <==> before.retryCount + 1 >= before.maxRetries)
      && (rows[id].status == Pending <==> before.retryCount + 1 < before.maxRetries)
      && (rows[id].status == Pending ==> rows[id].nextRetryAt >= now + 2)
  }

  lemma {:induction false} OwnCachedOnly(
    s: Outbox.State, relay: nat, delete: bool, picks: seq<nat>, answers: seq<Answer>, e: nat)
    requires RelayOf(s, relay).stage == Ready && picks <= RelayOf(s, relay).batch && |answers| == |picks|
    requires e !in picks
    ensures e in AfterBatch(s, relay, delete, answers).dedup <==> e in s.dedup
  {
    if answers != [] {
      var n := |answers| - 1;
      OwnCachedOnly(s, relay, delete, picks[..n], answers[..n], e);
      assert e != picks[n];
    }
  }

  /** What a batch sends depends on the dedup cache at its start only. */
  lemma {:induction false} AfterBatchLog(
    s: Outbox.State, relay: nat, delete: bool, picks: seq<nat>, answers: seq<Answer>)
    requires RelayOf(s, relay).stage == Ready && picks <= RelayOf(s, relay).batch && |answers| == |picks|
    requires Distinct(picks)
    ensures AfterBatch(s, relay, delete, answers).log == s.log + SentBy(picks, answers, s.dedup)
  {
    if answers != [] {
      var n := |answers| - 1;
      AfterBatchLog(s, relay, delete, picks[..n], answers[..n]);
      OwnCachedOnly(s, relay, delete, picks[..n], answers[..n], picks[n]);
      assert Head(AfterBatch(s, relay, delete, answers[..n]), relay) == picks[n];
    }
  }

  /** And so do the rows it leaves. */
  lemma {:induction false} AfterBatchRows(
    s: Outbox.State, relay: nat, delete: bool, picks: seq<nat>, answers: seq<Answer>)
    requires RelayOf(s, relay).stage == Ready && picks <= RelayOf(s, relay).batch && |answers| == |picks|
    requires Distinct(picks)
    ensures AfterBatch(s, relay, delete, answers).rows == BatchRows(s.rows, picks, answers, s.dedup, s.now, delete)
  {
    if answers != [] {
      var n := |answers| - 1;
      AfterBatchRows(s, relay, delete, picks[..n], answers[..n]);
      OwnCachedOnly(s, relay, delete, picks[..n], answers[..n], picks[n]);
      assert Head(AfterBatch(s, relay, delete, answers[..n]), relay) == picks[n];
    }
  }

  predicate SameRow(rows: map<nat, Row>, rows': map<nat, Row>, e: nat) {
    (e in rows <==> e in rows') && (e in rows ==> rows[e] == rows'[e])
  }

  /** Relaying one pending event decides its own row as `Relayed` says and touches no other. */
  lemma RowsAfterExactly(rows: map<nat, Row>, id: nat, now: nat, delete: bool, success: bool, dbUp: bool)
    requires id in rows && rows[id].status == Pending
    ensures Relayed(rows[id], RowsAfter(rows, id, now, delete, success, dbUp), id, now, delete, success, dbUp)
    ensures forall e: nat | e != id :: SameRow(rows, RowsAfter(rows, id, now, delete, success, dbUp), e)
  {
    RetryDecides(rows, id, now);
    DoneDecides(rows, id);
  }

  /** Relaying a batch decides every row of it by that event's own answers and touches no other. */
  lemma {:induction false} BatchRowsExactly(
    rows: map<nat, Row>, picks: seq<nat>, answers: seq<Answer>, dedup: set<nat>, now: nat, delete: bool)
    requires |picks| == |answers| && Distinct(picks)
    requires forall n :: 0 <= n < |picks| ==> picks[n] in rows && rows[picks[n]].status == Pending
    ensures var after := BatchRows(rows, picks, answers, dedup, now, delete);
            && (forall e: nat | e !in picks :: SameRow(rows, after, e))
            && forall n :: 0 <= n < |picks| ==>
                 Relayed(rows[picks[n]], after, picks[n], now, delete,
                         Succeeds(answers[n], picks[n], dedup), answers[n].dbUp)
  {
    if picks != [] {
      var n := |picks| - 1;
      BatchRowsExactly(rows, picks[..n], answers[..n], dedup, now, delete);
      var before := BatchRows(rows, picks[..n], answers[..n], dedup, now, delete);
      assert SameRow(rows, before, picks[n]);
      RowsAfterExactly(before, picks[n], now, delete, Succeeds(answers[n], picks[n], dedup), answers[n].dbUp);
      var after := BatchRows(rows, picks, answers, dedup, now, delete);
      forall m | 0 <= m < n
        ensures Relayed(rows[picks[m]], after, picks[m], now, delete,
                        Succeeds(answers[m], picks[m], dedup), answers[m].dbUp)
      {
        assert picks[..n][m] == picks[m] && answers[..n][m] == answers[m];
        assert SameRow(before, after, picks[m]);
      }
      forall e: nat | e !in picks ensures SameRow(rows, after, e) {
        assert SameRow(rows, before, e) && SameRow(before, after, e);
      }
    }
  }

  /**
   * A claimed and relayed batch, by its answers: exactly the published events reach the log, in batch order,
   * every row of the batch is decided by that event's own answers, and no other row moves.
   */
  lemma BatchDecides(s: Outbox.State, relay: nat, picks: seq<nat>, delete: bool, answers: seq<Answer>)
    requires CanClaim(s, relay, picks) && |answers| == |picks|
    ensures var s' := AfterBatch(Apply(s, Claim(relay, picks)), relay, delete, answers);
            && s'.log == s.log + SentBy(picks, answers, s.dedup)
            && (forall e: nat | e !in picks :: SameRow(s.rows, s'.rows, e))
            && forall n :: 0 <= n < |picks| ==>
                 && picks[n] in s.rows
                 && Relayed(s.rows[picks[n]].(lockedBy := Some(relay), lockedAt := s.now), s'.rows, picks[n], s.now,
                            delete, Succeeds(answers[n], picks[n], s.dedup), answers[n].dbUp)
  {
    var s1 := Apply(s, Claim(relay, picks));
    AfterBatchLog(s1, relay, delete, picks, answers);
    AfterBatchRows(s1, relay, delete, picks, answers);
    forall n | 0 <= n < |picks| ensures picks[n] in s.rows && s.rows[picks[n]].status == Pending {
      assert Eligible(s.rows, s.now, picks[n]);
    }
    BatchRowsExactly(s1.rows, picks, answers, s.dedup, s.now, delete);
    var s' := AfterBatch(s1, relay, delete, answers);
    forall e: nat | e !in picks ensures SameRow(s.rows, s'.rows, e) {
      assert SameRow(s1.rows, s'.rows, e);
    }
  }

  /** Steps that only this relay takes. */
  predicate OwnStep(step: Step, relay: nat) {
    && (step.Claim? || step.DedupHit? || step.PublishOk? || step.PublishErr? || step.CacheMark? || step.MarkDone?
        || step.MarkRetry?)
    && step.relay == relay
  }

  predicate Own(trace: seq<Step>, relay: nat) {
    forall n :: 0 <= n < |trace| ==> OwnStep(trace[n], relay)
  }

  lemma TraceJoins(s: Outbox.State, xs: seq<Step>, ys: seq<Step>, relay: nat)
    requires Own(xs, relay) && Own(ys, relay)
    ensures Run(s, xs + ys) == Run(Run(s, xs), ys) && Own(xs + ys, relay)
  {
    RunJoins(s, xs, ys);
  }

  lemma RunOne(s: Outbox.State, a: Step)
    ensures Run(s, [a]) == Apply(s, a)
  {
    assert [a][..0] == [];
  }

  lemma RunTwo(s: Outbox.State, a: Step, b: Step)
    ensures Run(s, [a, b]) == Apply(Apply(s, a), b)
  {
    assert [a, b][..1] == [a];
    RunOne(s, a);
  }

  lemma RunThree(s: Outbox.State, a: Step, b: Step, c: Step)
    ensures Run(s, [a, b, c]) == Apply(Apply(Apply(s, a), b), c)
  {
    assert [a, b, c][..2] == [a, b];
    RunTwo(s, a, b);
  }

  /** Rows after marking the head as done. */
  function DoneRows(rows: map<nat, Row>, id: nat, delete: bool, ok: bool): map<nat, Row> {
    if !ok then rows else if delete then DeletePublished(rows, id) else Outbox.MarkPublished(rows, id)
  }

  function Moved(s: Outbox.State, relay: nat): map<nat, Relay>
    requires RelayOf(s, relay).batch != []
  {
    s.relays[relay := Relay(RelayOf(s, relay).batch[1..], Ready)]
  }

  lemma HitTrace(s: Outbox.State, relay: nat, delete: bool, ok: bool) returns (trace: seq<Step>)
    requires At(s, relay, Ready) && Head(s, relay) in s.dedup
    ensures Run(s, trace) == s.(rows := DoneRows(s.rows, Head(s, relay), delete, ok), relays := Moved(s, relay))
    ensures Own(trace, relay)
  {
    trace := [DedupHit(relay), MarkDone(relay, delete, ok)];
    RunTwo(s, trace[0], trace[1]);
    var s1 := Apply(s, trace[0]);
    assert At(s1, relay, Hit) && Head(s1, relay) == Head(s, relay);
    assert Moved(s1, relay) == Moved(s, relay);
  }

  lemma PublishTrace(s: Outbox.State, relay: nat, delete: bool, cacheUp: bool, ok: bool) returns (trace: seq<Step>)
    requires At(s, relay, Ready)
    ensures Run(s, trace) == s.(rows := DoneRows(s.rows, Head(s, relay), delete, ok),
                                log := s.log + [Head(s, relay)],
                                dedup := if cacheUp then s.dedup + {Head(s, relay)} else s.dedup,
                                relays := Moved(s, relay))
    ensures Own(trace, relay)
  {
    trace := [PublishOk(relay), CacheMark(relay, cacheUp), MarkDone(relay, delete, ok)];
    RunThree(s, trace[0], trace[1], trace[2]);
    var s1 := Apply(s, trace[0]);
    assert At(s1, relay, Sent) && Head(s1, relay) == Head(s, relay);
    var s2 := Apply(s1, trace[1]);
    assert At(s2, relay, Cached) && Head(s2, relay) == Head(s, relay);
    assert Moved(s2, relay) == Moved(s, relay);
  }

  lemma RejectTrace(s: Outbox.State, relay: nat, appended: bool, ok: bool) returns (trace: seq<Step>)
    requires At(s, relay, Ready)
    ensures Run(s, trace) == s.(rows := if ok then MarkRetryOrFailed(s.rows, Head(s, relay), s.now) else s.rows,
                                log := if appended then s.log + [Head(s, relay)] else s.log,
                                relays := Moved(s, relay))
    ensures Own(trace, relay)
  {
    trace := [PublishErr(relay, appended), MarkRetry(relay, ok)];
    RunTwo(s, trace[0], trace[1]);
    var s1 := Apply(s, trace[0]);
    assert At(s1, relay, Rejected) && Head(s1, relay) == Head(s, relay);
    assert Moved(s1, relay) == Moved(s, relay);
  }

  /** One event is a run of the relay's own steps. */
  lemma EventTrace(s: Outbox.State, relay: nat, delete: bool, a: Answer) returns (trace: seq<Step>)
    requires At(s, relay, Ready)
    ensures Run(s, trace) == AfterEvent(s, relay, delete, a) && Own(trace, relay)
  {
    if a.cacheUp && Head(s, relay) in s.dedup {
      trace := HitTrace(s, relay, delete, a.dbUp);
      assert s.dedup + {Head(s, relay)} == s.dedup;
    } else if a.accepted {
      trace := PublishTrace(s, relay, delete, a.cacheUp, a.dbUp);
    } else {
      trace := RejectTrace(s, relay, a.appended, a.dbUp);
    }
  }

  /** So is a batch. */
  lemma {:induction false} BatchTrace(s: Outbox.State, relay: nat, delete: bool, answers: seq<Answer>)
    returns (trace: seq<Step>)
    requires |answers| <= |RelayOf(s, relay).batch| && RelayOf(s, relay).stage == Ready
    ensures Run(s, trace) == AfterBatch(s, relay, delete, answers) && Own(trace, relay)
  {
    if answers == [] {
      return [];
    }
    var n := |answers| - 1;
    var front := BatchTrace(s, relay, delete, answers[..n]);
    var last := EventTrace(AfterBatch(s, relay, delete, answers[..n]), relay, delete, answers[n]);
    TraceJoins(s, front, last, relay);
    return front + last;
  }

  lemma {:induction false} RunJoins(s: Outbox.State, xs: seq<Step>, ys: seq<Step>)
    ensures Run(s, xs + ys) == Run(Run(s, xs), ys)
  {
    if ys == [] {
      assert xs + ys == xs;
    } else {
      var n := |ys| - 1;
      assert (xs + ys)[..|xs| + n] == xs + ys[..n];
      RunJoins(s, xs, ys[..n]);
    }
  }
}
