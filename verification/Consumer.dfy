/**
 * The idempotent event consumer: one transaction per attempt, bounded retries, a dead-letter topic and
 * manual acknowledgement. The database, the handler, the dead-letter producer and process death are
 * the environment's answers.
 */
module Consumer {
  import opened Common

  /** A message of the topic; `event` is None when its payload does not deserialize. */
  datatype Message = Message(offset: nat, event: Option<nat>)

  datatype HandlerAnswer = HandlerOk | HandlerTransient | HandlerPermanent

  /** A commit may fail before taking effect, or take effect and still be reported as failed. */
  datatype CommitAnswer = CommitOk | CommitLost | CommitUnreported

  /** Where in an attempt the process dies, if it does. */
  datatype Death = Alive | DiesBeforeCommit | DiesAfterCommit

  datatype AttemptAnswer = AttemptAnswer(
    begin: bool, check: bool, skipCommit: bool, handler: HandlerAnswer, mark: bool, commit: CommitAnswer, death: Death)

  /** Answers of one delivery: one per attempt, whether shutdown interrupts the wait after it, and the rest. */
  datatype Env = Env(attempts: seq<AttemptAnswer>, shutdown: seq<bool>, dlqOk: bool, diesBeforeAck: bool)

  datatype AttemptResult = Committed | AlreadyProcessed | DbError | PermanentFailure | TransientFailure | Died

  datatype ProcessResult = Success | Skipped | SentToDlq | DlqFailed | DbFailed | ProcessDied

  datatype Counters = Counters(
    processed: nat, skipped: nat, sentToDlq: nat, dlqFailed: nat, dbError: nat, deserFailed: nat, retried: nat)

  const ZERO: Counters := Counters(0, 0, 0, 0, 0, 0, 0)

  datatype State = State(
    markers: set<nat>,       // processed_events rows of this consumer group
    commits: seq<nat>,       // events whose handler writes were committed, in commit order
    forgotten: seq<nat>,     // markers deleted by cleanup
    dlq: seq<Message>,
    acked: seq<Message>,
    calls: nat,              // handler invocations
    counters: Counters)

  const INITIAL: State := State({}, [], [], [], [], 0, ZERO)

  /** `total_events` of the metrics snapshot. */
  function TotalEvents(c: Counters): nat {
    c.processed + c.skipped + c.sentToDlq + c.dlqFailed + c.dbError + c.deserFailed
  }

  // ── One attempt ─────────────────────────────────────────────

  function CommitWrites(s: State, e: nat): State {
    s.(markers := s.markers + {e}, commits := s.commits + [e])
  }

  /** Begin, idempotency check, handler, marker, commit. */
  function TryOnce(s: State, e: nat, a: AttemptAnswer): (State, AttemptResult) {
    if !a.begin || !a.check then (s, DbError)
    else if e in s.markers then
      if a.death != Alive then (s, Died)
      else if a.skipCommit then (s, AlreadyProcessed)
      else (s, DbError)
    else
      var s1 := s.(calls := s.calls + 1);
      match a.handler
      case HandlerPermanent => if a.death != Alive then (s1, Died) else (s1, PermanentFailure)
      case HandlerTransient => if a.death != Alive then (s1, Died) else (s1, TransientFailure)
      case HandlerOk =>
        if a.death == DiesBeforeCommit then (s1, Died)
        else if !a.mark then (s1, DbError)
        else
          match a.commit
          case CommitLost => if a.death == DiesAfterCommit then (s1, Died) else (s1, DbError)
          case CommitUnreported =>
            (CommitWrites(s1, e), if a.death == DiesAfterCommit then Died else DbError)
          case CommitOk =>
            (CommitWrites(s1, e), if a.death == DiesAfterCommit then Died else Committed)
  }

  // ── The retry loop ──────────────────────────────────────────

  function SendToDlq(s: State, m: Message, ok: bool): (State, ProcessResult) {
    if ok then (s.(dlq := s.dlq + [m], counters := s.counters.(sentToDlq := s.counters.sentToDlq + 1)), SentToDlq)
    else (s.(counters := s.counters.(dlqFailed := s.counters.dlqFailed + 1)), DlqFailed)
  }

  predicate EnvOk(env: Env, maxRetries: nat) {
    |env.attempts| == |env.shutdown| == maxRetries + 1
  }

  function RetryFrom(s: State, m: Message, maxRetries: nat, attempt: nat, env: Env): (State, ProcessResult)
    requires m.event.Some? && attempt <= maxRetries && EnvOk(env, maxRetries)
    decreases maxRetries - attempt
  {
    var (s1, r) := TryOnce(s, m.event.value, env.attempts[attempt]);
    match r
    case Committed => (s1.(counters := s1.counters.(processed := s1.counters.processed + 1)), Success)
    case AlreadyProcessed => (s1.(counters := s1.counters.(skipped := s1.counters.skipped + 1)), Skipped)
    case DbError => (s1.(counters := s1.counters.(dbError := s1.counters.dbError + 1)), DbFailed)
    case Died => (s1, ProcessDied)
    case PermanentFailure => SendToDlq(s1, m, env.dlqOk)
    case TransientFailure =>
      if attempt >= maxRetries then SendToDlq(s1, m, env.dlqOk)
      else
        var s2 := s1.(counters := s1.counters.(retried := s1.counters.retried + 1));
        if env.shutdown[attempt] then SendToDlq(s2, m, env.dlqOk)
        else RetryFrom(s2, m, maxRetries, attempt + 1, env)
  }

  /** One delivery, up to and including the offset commit. */
  function Process(s: State, m: Message, maxRetries: nat, env: Env): (State, ProcessResult)
    requires EnvOk(env, maxRetries)
  {
    var (s1, r) :=
      if m.event.Some? then RetryFrom(s, m, maxRetries, 0, env)
      else if env.dlqOk then
        (s.(dlq := s.dlq + [m], counters := s.counters.(deserFailed := s.counters.deserFailed + 1)), SentToDlq)
      else (s.(counters := s.counters.(dlqFailed := s.counters.dlqFailed + 1)), DlqFailed);
    if (r == Success || r == Skipped || r == SentToDlq) && !env.diesBeforeAck then (s1.(acked := s1.acked + [m]), r)
    else (s1, r)
  }

  // ── Runs ────────────────────────────────────────────────────

  datatype Op = Deliver(message: Message, env: Env) | Forget(event: nat)

  predicate OpOk(op: Op, maxRetries: nat) {
    op.Deliver? ==> EnvOk(op.env, maxRetries)
  }

  function Apply(s: State, op: Op, maxRetries: nat): State
    requires OpOk(op, maxRetries)
  {
    match op
    case Deliver(m, env) => Process(s, m, maxRetries, env).0
    case Forget(e) => if e in s.markers then s.(markers := s.markers - {e}, forgotten := s.forgotten + [e]) else s
  }

  function Run(ops: seq<Op>, maxRetries: nat): State
    requires forall n :: 0 <= n < |ops| ==> OpOk(ops[n], maxRetries)
  {
    if ops == [] then INITIAL else Apply(Run(ops[..|ops| - 1], maxRetries), ops[|ops| - 1], maxRetries)
  }

  function Times(xs: seq<nat>, e: nat): nat {
    if xs == [] then 0 else Times(xs[..|xs| - 1], e) + if xs[|xs| - 1] == e then 1 else 0
  }

  lemma TimesAppend(xs: seq<nat>, x: nat, e: nat)
    ensures Times(xs + [x], e) == Times(xs, e) + if x == e then 1 else 0
  {
    assert (xs + [x])[..|xs|] == xs;
  }

  lemma {:induction false} TimesMember(xs: seq<nat>, e: nat)
    ensures Times(xs, e) > 0 <==> e in xs
  {
    if xs != [] {
      TimesMember(xs[..|xs| - 1], e);
    }
  }

  // ── Invariant ───────────────────────────────────────────────

  /** Every commit is accounted for by a marker that lives or was deleted. */
  ghost predicate OnceEach(s: State) {
    forall e: nat :: Times(s.commits, e) == Times(s.forgotten, e) + if e in s.markers then 1 else 0
  }

  /** A message counts as handled when its writes are committed or it is on the dead-letter topic. */
  predicate Handled(s: State, m: Message) {
    m in s.dlq || (m.event.Some? && m.event.value in s.commits)
  }

  predicate AckedOnlyIfHandled(s: State) {
    forall i :: 0 <= i < |s.acked| ==> Handled(s, s.acked[i])
  }

  ghost predicate Inv(s: State) {
    OnceEach(s) && AckedOnlyIfHandled(s)
  }

  /** What one delivery of `m` may do before the acknowledgement. */
  ghost predicate Proceeds(s: State, s': State, m: Message, calls: nat) {
    && s'.acked == s.acked && s'.forgotten == s.forgotten
    && s.dlq <= s'.dlq && s.commits <= s'.commits
    && s.calls <= s'.calls <= s.calls + calls
    && OnceEach(s')
  }

  lemma TryProceeds(s: State, m: Message, a: AttemptAnswer)
    requires m.event.Some? && OnceEach(s)
    ensures var (s', r) := TryOnce(s, m.event.value, a);
            && Proceeds(s, s', m, 1)
            && s'.dlq == s.dlq && s'.counters == s.counters
            && (r == Committed || r == AlreadyProcessed ==> m.event.value in s'.commits)
  {
    var e := m.event.value;
    forall x: nat ensures Times(s.commits + [e], x) == Times(s.commits, x) + if e == x then 1 else 0 {
      TimesAppend(s.commits, e, x);
    }
    TimesMember(s.commits, e);
    assert e in s.markers ==> Times(s.commits, e) > 0;
  }

  /** Exactly one of the six outcome counters is raised, by one. */
  predicate RaisesOne(c: Counters, c': Counters) {
    || (c' == c.(processed := c.processed + 1, retried := c'.retried))
    || (c' == c.(skipped := c.skipped + 1, retried := c'.retried))
    || (c' == c.(sentToDlq := c.sentToDlq + 1, retried := c'.retried))
    || (c' == c.(dlqFailed := c.dlqFailed + 1, retried := c'.retried))
    || (c' == c.(dbError := c.dbError + 1, retried := c'.retried))
    || (c' == c.(deserFailed := c.deserFailed + 1, retried := c'.retried))
  }

  predicate Acknowledges(r: ProcessResult) {
    r == Success || r == Skipped || r == SentToDlq
  }

  /** Raising a counter changes nothing else. */
  lemma CountersAreFree(s: State, c: Counters, dlq: seq<Message>)
    requires OnceEach(s)
    ensures OnceEach(s.(counters := c, dlq := dlq))
  {
  }

  lemma ProceedsJoins(s: State, s1: State, s2: State, s': State, m: Message, calls: nat)
    requires Proceeds(s, s1, m, 1) && s2 == s1.(counters := s2.counters) && Proceeds(s2, s', m, calls)
    ensures Proceeds(s, s', m, calls + 1)
  {
  }

  lemma {:induction false} RetryProceeds(s: State, m: Message, maxRetries: nat, attempt: nat, env: Env)
    requires m.event.Some? && attempt <= maxRetries && EnvOk(env, maxRetries) && OnceEach(s)
    ensures var (s', r) := RetryFrom(s, m, maxRetries, attempt, env);
            && Proceeds(s, s', m, maxRetries + 1 - attempt)
            && (Acknowledges(r) ==> Handled(s', m))
    decreases maxRetries - attempt
  {
    var (s1, r) := TryOnce(s, m.event.value, env.attempts[attempt]);
    TryProceeds(s, m, env.attempts[attempt]);
    if r == TransientFailure && attempt < maxRetries && !env.shutdown[attempt] {
      var s2 := s1.(counters := s1.counters.(retried := s1.counters.retried + 1));
      CountersAreFree(s1, s2.counters, s2.dlq);
      RetryGoesOn(s, m, maxRetries, attempt, env, s1);
      RetryProceeds(s2, m, maxRetries, attempt + 1, env);
      var (s', _) := RetryFrom(s2, m, maxRetries, attempt + 1, env);
      ProceedsJoins(s, s1, s2, s', m, maxRetries - attempt);
    } else {
      LastAttempt(s, m, maxRetries, attempt, env);
    }
  }

  lemma RetryGoesOn(s: State, m: Message, maxRetries: nat, attempt: nat, env: Env, s1: State)
    requires m.event.Some? && attempt < maxRetries && EnvOk(env, maxRetries) && !env.shutdown[attempt]
    requires TryOnce(s, m.event.value, env.attempts[attempt]) == (s1, TransientFailure)
    ensures RetryFrom(s, m, maxRetries, attempt, env)
         == RetryFrom(s1.(counters := s1.counters.(retried := s1.counters.retried + 1)),
                      m, maxRetries, attempt + 1, env)
  {
  }

  /** The attempt that ends a delivery only raises counters and may add to the dead-letter topic. */
  lemma LastAttempt(s: State, m: Message, maxRetries: nat, attempt: nat, env: Env)
    requires m.event.Some? && attempt <= maxRetries && EnvOk(env, maxRetries) && OnceEach(s)
    requires var (_, r) := TryOnce(s, m.event.value, env.attempts[attempt]);
             !(r == TransientFailure && attempt < maxRetries && !env.shutdown[attempt])
    ensures var (s', r) := RetryFrom(s, m, maxRetries, attempt, env);
            && Proceeds(s, s', m, maxRetries + 1 - attempt)
            && (Acknowledges(r) ==> Handled(s', m))
  {
    var (s1, _) := TryOnce(s, m.event.value, env.attempts[attempt]);
    TryProceeds(s, m, env.attempts[attempt]);
    var (s', _) := RetryFrom(s, m, maxRetries, attempt, env);
    CountersAreFree(s1, s'.counters, s'.dlq);
    assert s' == s1.(counters := s'.counters, dlq := s'.dlq);
  }

  lemma {:induction false} RetryCounts(s: State, m: Message, maxRetries: nat, attempt: nat, env: Env)
    requires m.event.Some? && attempt <= maxRetries && EnvOk(env, maxRetries)
    ensures var (s', r) := RetryFrom(s, m, maxRetries, attempt, env);
            r != ProcessDied ==> RaisesOne(s.counters, s'.counters)
    decreases maxRetries - attempt
  {
    var (s1, r) := TryOnce(s, m.event.value, env.attempts[attempt]);
    assert s1.counters == s.counters;
    if r == TransientFailure && attempt < maxRetries && !env.shutdown[attempt] {
      RetryCounts(s1.(counters := s1.counters.(retried := s1.counters.retried + 1)), m, maxRetries, attempt + 1, env);
    }
  }

  /**
   * One delivery: the handler is called at most `max_retries + 1` times, a completed delivery raises
   * exactly one outcome counter, and the message is acknowledged only after its writes are committed or
   * it is on the dead-letter topic.
   */
  lemma DeliveryContract(s: State, m: Message, maxRetries: nat, env: Env)
    requires EnvOk(env, maxRetries) && OnceEach(s)
    ensures var (s', r) := Process(s, m, maxRetries, env);
            && OnceEach(s')
            && s'.calls <= s.calls + maxRetries + 1
            && s.dlq <= s'.dlq && s.commits <= s'.commits
            && (r != ProcessDied ==>
                  && RaisesOne(s.counters, s'.counters)
                  && TotalEvents(s'.counters) == TotalEvents(s.counters) + 1)
            && s'.acked == (if Acknowledges(r) && !env.diesBeforeAck then s.acked + [m] else s.acked)
            && (Acknowledges(r) ==> Handled(s', m))
  {
    if m.event.Some? {
      RetryProceeds(s, m, maxRetries, 0, env);
      RetryCounts(s, m, maxRetries, 0, env);
      var (s1, r) := RetryFrom(s, m, maxRetries, 0, env);
      assert OnceEach(s1.(acked := s1.acked + [m]));
    }
  }

  lemma HandledStays(s: State, s': State, m: Message)
    requires Handled(s, m) && s.dlq <= s'.dlq && s.commits <= s'.commits
    ensures Handled(s', m)
  {
    if m in s.dlq {
      var i :| 0 <= i < |s.dlq| && s.dlq[i] == m;
      assert s'.dlq[i] == m;
    } else {
      var i :| 0 <= i < |s.commits| && s.commits[i] == m.event.value;
      assert s'.commits[i] == m.event.value;
    }
  }

  lemma OpKeepsInv(s: State, op: Op, maxRetries: nat)
    requires Inv(s) && OpOk(op, maxRetries)
    ensures Inv(Apply(s, op, maxRetries))
  {
    var s' := Apply(s, op, maxRetries);
    match op {
      case Deliver(m, env) =>
        DeliveryContract(s, m, maxRetries, env);
        forall i | 0 <= i < |s'.acked| ensures Handled(s', s'.acked[i]) {
          if i < |s.acked| {
            HandledStays(s, s', s.acked[i]);
          }
        }
      case Forget(e) =>
        forall x: nat ensures Times(s.forgotten + [e], x) == Times(s.forgotten, x) + if e == x then 1 else 0 {
          TimesAppend(s.forgotten, e, x);
        }
        forall i | 0 <= i < |s'.acked| ensures Handled(s', s'.acked[i]) {
          assert Handled(s, s.acked[i]);
        }
    }
  }

  lemma {:induction false} RunKeepsInv(ops: seq<Op>, maxRetries: nat)
    requires forall n :: 0 <= n < |ops| ==> OpOk(ops[n], maxRetries)
    ensures Inv(Run(ops, maxRetries))
  {
    if ops != [] {
      RunKeepsInv(ops[..|ops| - 1], maxRetries);
      OpKeepsInv(Run(ops[..|ops| - 1], maxRetries), ops[|ops| - 1], maxRetries);
    }
  }

  /**
   * Effectively-once consumption, over any sequence of deliveries with database failures, ambiguous
   * commits, handler errors, crashes and marker cleanups: an event's writes commit once for each time
   * its marker was deleted, plus once if the marker lives; so at most once while no marker is deleted.
   * And an acknowledged message has its writes committed or is on the dead-letter topic.
   */
  lemma EffectivelyOnce(ops: seq<Op>, maxRetries: nat, e: nat)
    requires forall n :: 0 <= n < |ops| ==> OpOk(ops[n], maxRetries)
    ensures var s := Run(ops, maxRetries);
            && Times(s.commits, e) == Times(s.forgotten, e) + (if e in s.markers then 1 else 0)
            && (e !in s.forgotten ==> Times(s.commits, e) <= 1)
            && (forall i :: 0 <= i < |s.acked| ==> Handled(s, s.acked[i]))
  {
    RunKeepsInv(ops, maxRetries);
    TimesMember(Run(ops, maxRetries).forgotten, e);
  }

  // ── Which answers lead to what ──────────────────────────────

  /** The attempt reaches its handler and lives to see the answer. */
  predicate Reaches(a: AttemptAnswer) {
    a.begin && a.check && a.death == Alive
  }

  predicate Retries(env: Env, j: nat)
    requires j < |env.attempts| == |env.shutdown|
  {
    Reaches(env.attempts[j]) && env.attempts[j].handler == HandlerTransient
  }

  predicate Commits(a: AttemptAnswer) {
    Reaches(a) && a.handler == HandlerOk && a.mark && a.commit == CommitOk
  }

  /** `k` handler calls that left nothing but a raised retry counter. */
  function AfterRetries(s: State, k: nat): State {
    s.(calls := s.calls + k, counters := s.counters.(retried := s.counters.retried + k))
  }

  /** Transient answers, not cut short by shutdown, lead from one attempt to the next. */
  lemma {:induction false} TransientsAreRetried(s: State, m: Message, maxRetries: nat, attempt: nat, env: Env, k: nat)
    requires m.event.Some? && m.event.value !in s.markers && EnvOk(env, maxRetries) && attempt + k <= maxRetries
    requires forall j :: attempt <= j < attempt + k ==> Retries(env, j) && !env.shutdown[j]
    ensures RetryFrom(s, m, maxRetries, attempt, env) == RetryFrom(AfterRetries(s, k), m, maxRetries, attempt + k, env)
    decreases k
  {
    if k > 0 {
      assert Retries(env, attempt);
      TransientsAreRetried(AfterRetries(s, 1), m, maxRetries, attempt + 1, env, k - 1);
      assert AfterRetries(AfterRetries(s, 1), k - 1) == AfterRetries(s, k);
    } else {
      assert AfterRetries(s, 0) == s;
    }
  }

  /** The state after a delivery ends on the dead-letter topic, or fails to get there. */
  function DeadLettered(s: State, m: Message, calls: nat, retried: nat, env: Env): State {
    var s1 := s.(calls := s.calls + calls, counters := s.counters.(retried := s.counters.retried + retried));
    if !env.dlqOk then s1.(counters := s1.counters.(dlqFailed := s1.counters.dlqFailed + 1))
    else
      s1.(counters := s1.counters.(sentToDlq := s1.counters.sentToDlq + 1), dlq := s1.dlq + [m],
          acked := if env.diesBeforeAck then s1.acked else s1.acked + [m])
  }

  function DeadLetterResult(env: Env): ProcessResult {
    if env.dlqOk then SentToDlq else DlqFailed
  }

  /**
   * After k transient answers, a permanent one goes straight to the dead-letter topic: k + 1 handler
   * calls, nothing committed. With k = 0 the handler is called exactly once.
   */
  lemma PermanentIsDeadLettered(s: State, m: Message, maxRetries: nat, env: Env, k: nat)
    requires m.event.Some? && m.event.value !in s.markers && EnvOk(env, maxRetries) && k <= maxRetries
    requires forall j :: 0 <= j < k ==> Retries(env, j) && !env.shutdown[j]
    requires Reaches(env.attempts[k]) && env.attempts[k].handler == HandlerPermanent
    ensures Process(s, m, maxRetries, env) == (DeadLettered(s, m, k + 1, k, env), DeadLetterResult(env))
  {
    TransientsAreRetried(s, m, maxRetries, 0, env, k);
  }

  /** After k transient answers, a committed one ends the delivery: k + 1 calls, one commit, acknowledged. */
  lemma TransientsThenSuccess(s: State, m: Message, maxRetries: nat, env: Env, k: nat)
    requires m.event.Some? && m.event.value !in s.markers && EnvOk(env, maxRetries) && k <= maxRetries
    requires forall j :: 0 <= j < k ==> Retries(env, j) && !env.shutdown[j]
    requires Commits(env.attempts[k])
    ensures var (s', r) := Process(s, m, maxRetries, env);
            && r == Success && s'.calls == s.calls + k + 1
            && s'.commits == s.commits + [m.event.value] && s'.markers == s.markers + {m.event.value}
            && s'.acked == (if env.diesBeforeAck then s.acked else s.acked + [m]) && s'.dlq == s.dlq
            && s'.counters == s.counters.(processed := s.counters.processed + 1, retried := s.counters.retried + k)
  {
    TransientsAreRetried(s, m, maxRetries, 0, env, k);
  }

  /** Nothing but transient answers: exactly `max_retries + 1` calls, then the dead-letter topic. */
  lemma ExhaustedIsDeadLettered(s: State, m: Message, maxRetries: nat, env: Env)
    requires m.event.Some? && m.event.value !in s.markers && EnvOk(env, maxRetries)
    requires forall j :: 0 <= j <= maxRetries ==> Retries(env, j) && (j < maxRetries ==> !env.shutdown[j])
    ensures Process(s, m, maxRetries, env)
         == (DeadLettered(s, m, maxRetries + 1, maxRetries, env), DeadLetterResult(env))
  {
    TransientsAreRetried(s, m, maxRetries, 0, env, maxRetries);
    assert Retries(env, maxRetries);
  }

  /** A shutdown during the wait after a transient answer dead-letters the message with retries left. */
  lemma ShutdownIsDeadLettered(s: State, m: Message, maxRetries: nat, env: Env, k: nat)
    requires m.event.Some? && m.event.value !in s.markers && EnvOk(env, maxRetries) && k < maxRetries
    requires forall j :: 0 <= j <= k ==> Retries(env, j) && (j < k ==> !env.shutdown[j])
    requires env.shutdown[k]
    ensures Process(s, m, maxRetries, env) == (DeadLettered(s, m, k + 1, k + 1, env), DeadLetterResult(env))
  {
    TransientsAreRetried(s, m, maxRetries, 0, env, k);
    assert Retries(env, k);
  }

  /** A marked event is skipped and acknowledged, and its handler not called. */
  lemma MarkedIsSkipped(s: State, m: Message, maxRetries: nat, env: Env)
    requires m.event.Some? && m.event.value in s.markers && EnvOk(env, maxRetries)
    requires Reaches(env.attempts[0]) && env.attempts[0].skipCommit
    ensures Process(s, m, maxRetries, env)
         == (s.(counters := s.counters.(skipped := s.counters.skipped + 1),
                acked := if env.diesBeforeAck then s.acked else s.acked + [m]), Skipped)
  {
  }

  /** A database that fails to begin, check, mark or commit ends the delivery unacknowledged, and unretried. */
  lemma DbErrorEndsDelivery(s: State, m: Message, maxRetries: nat, env: Env)
    requires m.event.Some? && m.event.value !in s.markers && EnvOk(env, maxRetries) && env.attempts[0].death == Alive
    requires var a := env.attempts[0];
             || !a.begin || !a.check
             || (a.handler == HandlerOk && (!a.mark || a.commit != CommitOk))
    ensures var (s', r) := Process(s, m, maxRetries, env);
            var a := env.attempts[0];
            && r == DbFailed && s'.acked == s.acked && s'.dlq == s.dlq
            && s'.counters == s.counters.(dbError := s.counters.dbError + 1)
            && s'.calls == s.calls + (if a.begin && a.check then 1 else 0)
            && s'.commits == s.commits + if a.begin && a.check && a.mark && a.commit == CommitUnreported
                                         then [m.event.value] else []
  {
  }

  /** A message that does not deserialize goes to the dead-letter topic, under a counter of its own. */
  lemma GarbageIsDeadLettered(s: State, m: Message, maxRetries: nat, env: Env)
    requires m.event.None? && EnvOk(env, maxRetries)
    ensures var (s', r) := Process(s, m, maxRetries, env);
            && r == DeadLetterResult(env) && s'.calls == s.calls && s'.commits == s.commits
            && s'.dlq == (if env.dlqOk then s.dlq + [m] else s.dlq)
            && s'.acked == (if env.dlqOk && !env.diesBeforeAck then s.acked + [m] else s.acked)
            && s'.counters == if env.dlqOk then s.counters.(deserFailed := s.counters.deserFailed + 1)
                              else s.counters.(dlqFailed := s.counters.dlqFailed + 1)
  {
  }

  /** Which counter a delivery of a readable message raises tells its result. */
  predicate CounterTells(c: Counters, c': Counters, r: ProcessResult) {
    match r
    case Success => c' == c.(processed := c.processed + 1, retried := c'.retried)
    case Skipped => c' == c.(skipped := c.skipped + 1, retried := c'.retried)
    case SentToDlq => c' == c.(sentToDlq := c.sentToDlq + 1, retried := c'.retried)
    case DlqFailed => c' == c.(dlqFailed := c.dlqFailed + 1, retried := c'.retried)
    case DbFailed => c' == c.(dbError := c.dbError + 1, retried := c'.retried)
    case ProcessDied => c' == c.(retried := c'.retried)
  }

  /** What is true of the state after each result. */
  predicate ResultTells(s: State, s': State, m: Message, r: ProcessResult)
    requires m.event.Some?
  {
    && (r == Success ==> s'.commits == s.commits + [m.event.value] && s'.dlq == s.dlq)
    && (r == Skipped ==>
          m.event.value in s.markers && s'.commits == s.commits && s'.dlq == s.dlq && s'.calls == s.calls)
    && (r == SentToDlq ==> s'.dlq == s.dlq + [m] && s'.commits == s.commits)
    && (r == DlqFailed ==> s'.dlq == s.dlq && s'.commits == s.commits)
  }

  lemma {:induction false} ResultsTell(s: State, m: Message, maxRetries: nat, attempt: nat, env: Env)
    requires m.event.Some? && attempt <= maxRetries && EnvOk(env, maxRetries)
    ensures var (s', r) := RetryFrom(s, m, maxRetries, attempt, env);
            CounterTells(s.counters, s'.counters, r) && ResultTells(s, s', m, r)
    decreases maxRetries - attempt
  {
    var (s1, r) := TryOnce(s, m.event.value, env.attempts[attempt]);
    if r == TransientFailure && attempt < maxRetries && !env.shutdown[attempt] {
      assert m.event.value !in s.markers && s1 == s.(calls := s.calls + 1);
      ResultsTell(s1.(counters := s1.counters.(retried := s1.counters.retried + 1)), m, maxRetries, attempt + 1, env);
    }
  }

  /** Every delivery of a readable message: the result says which counter rose, and what happened to the message. */
  lemma DeliveryTells(s: State, m: Message, maxRetries: nat, env: Env)
    requires m.event.Some? && EnvOk(env, maxRetries)
    ensures var (s', r) := Process(s, m, maxRetries, env);
            && CounterTells(s.counters, s'.counters, r)
            && ResultTells(s, s', m, r)
            && s'.acked == if r in {Success, Skipped, SentToDlq} && !env.diesBeforeAck then s.acked + [m] else s.acked
  {
    ResultsTell(s, m, maxRetries, 0, env);
    AckedOnlyAtTheEnd(s, m, maxRetries, 0, env);
  }

  lemma {:induction false} AckedOnlyAtTheEnd(s: State, m: Message, maxRetries: nat, attempt: nat, env: Env)
    requires m.event.Some? && attempt <= maxRetries && EnvOk(env, maxRetries)
    ensures RetryFrom(s, m, maxRetries, attempt, env).0.acked == s.acked
    decreases maxRetries - attempt
  {
    var (s1, r) := TryOnce(s, m.event.value, env.attempts[attempt]);
    if r == TransientFailure && attempt < maxRetries && !env.shutdown[attempt] {
      var s2 := s1.(counters := s1.counters.(retried := s1.counters.retried + 1));
      AckedOnlyAtTheEnd(s2, m, maxRetries, attempt + 1, env);
    }
  }

  // ── The consumer as it runs ─────────────────────────────────

  class KafkaEventConsumer {
    var markers: set<nat>
    var commits: seq<nat>
    var dlq: seq<Message>
    var acked: seq<Message>
    var calls: nat
    var counters: Counters
    ghost var forgotten: seq<nat>
    const maxRetries: nat

    ghost function View(): State
      reads this
    {
      State(markers, commits, forgotten, dlq, acked, calls, counters)
    }

    constructor (retries: nat)
      ensures View() == INITIAL && maxRetries == retries
    {
      markers, commits, dlq, acked, calls, counters := {}, [], [], [], 0, ZERO;
      forgotten := [];
      maxRetries := retries;
    }

    method TryProcessOnce(e: nat, a: AttemptAnswer) returns (r: AttemptResult)
      modifies this
      ensures (View(), r) == TryOnce(old(View()), e, a)
    {
      if !a.begin || !a.check {
        return DbError;
      }
      if e in markers {
        if a.death != Alive {
          return Died;
        }
        return if a.skipCommit then AlreadyProcessed else DbError;
      }
      calls := calls + 1;
      match a.handler {
        case HandlerPermanent => return if a.death != Alive then Died else PermanentFailure;
        case HandlerTransient => return if a.death != Alive then Died else TransientFailure;
        case HandlerOk =>
          if a.death == DiesBeforeCommit {
            return Died;
          }
          if !a.mark {
            return DbError;
          }
          if a.commit != CommitLost {
            markers := markers + {e};
            commits := commits + [e];
          }
          if a.death == DiesAfterCommit {
            return Died;
          }
          return if a.commit == CommitOk then Committed else DbError;
      }
    }

    method SendToDlqWithMetrics(m: Message, ok: bool) returns (r: ProcessResult)
      modifies this`dlq, this`counters
      ensures (View(), r) == SendToDlq(old(View()), m, ok)
    {
      if ok {
        dlq := dlq + [m];
        counters := counters.(sentToDlq := counters.sentToDlq + 1);
        return SentToDlq;
      }
      counters := counters.(dlqFailed := counters.dlqFailed + 1);
      return DlqFailed;
    }

    method ProcessWithRetry(m: Message, env: Env) returns (r: ProcessResult)
      requires m.event.Some? && EnvOk(env, maxRetries)
      modifies this
      ensures (View(), r) == RetryFrom(old(View()), m, maxRetries, 0, env)
    {
      var attempt := 0;
      while attempt <= maxRetries
        invariant 0 <= attempt <= maxRetries
        invariant RetryFrom(View(), m, maxRetries, attempt, env) == RetryFrom(old(View()), m, maxRetries, 0, env)
      {
        var outcome := TryProcessOnce(m.event.value, env.attempts[attempt]);
        match outcome {
          case Committed =>
            counters := counters.(processed := counters.processed + 1);
            return Success;
          case AlreadyProcessed =>
            counters := counters.(skipped := counters.skipped + 1);
            return Skipped;
          case DbError =>
            counters := counters.(dbError := counters.dbError + 1);
            return DbFailed;
          case Died => return ProcessDied;
          case PermanentFailure =>
            r := SendToDlqWithMetrics(m, env.dlqOk);
            return;
          case TransientFailure =>
            if attempt >= maxRetries {
              break;
            }
            counters := counters.(retried := counters.retried + 1);
            if env.shutdown[attempt] {
              r := SendToDlqWithMetrics(m, env.dlqOk);
              return;
            }
        }
        attempt := attempt + 1;
      }
      r := SendToDlqWithMetrics(m, env.dlqOk);
    }

    method ProcessMessage(m: Message, env: Env) returns (r: ProcessResult)
      requires EnvOk(env, maxRetries)
      modifies this
      ensures (View(), r) == Process(old(View()), m, maxRetries, env)
    {
      if m.event.Some? {
        r := ProcessWithRetry(m, env);
      } else if env.dlqOk {
        dlq := dlq + [m];
        counters := counters.(deserFailed := counters.deserFailed + 1);
        r := SentToDlq;
      } else {
        counters := counters.(dlqFailed := counters.dlqFailed + 1);
        r := DlqFailed;
      }
      if Acknowledges(r) && !env.diesBeforeAck {
        acked := acked + [m];
      }
    }
  }
}
