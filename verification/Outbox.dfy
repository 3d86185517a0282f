/**
 * The transactional outbox: several relay instances over one table, a broker log and a best-effort
 * publish-dedup cache. Every SQL statement, broker call and cache call is one step; a relay may crash
 * between any two of its steps.
 */
module Outbox {
  import opened Common

  datatype RowStatus = Pending | Published | Failed

  datatype Row = Row(
    aggregate: nat, createdAt: nat, status: RowStatus,
    lockedBy: Option<nat>, lockedAt: nat, retryCount: nat, maxRetries: nat, nextRetryAt: nat)

  /** What was inserted, kept after the row is gone. */
  datatype Fact = Fact(aggregate: nat, createdAt: nat)

  /** Where a relay stands with the first event of its batch. */
  datatype Stage = Ready | Hit | Sent | Cached | Rejected

  datatype Relay = Relay(batch: seq<nat>, stage: Stage)

  datatype State = State(
    now: nat,
    rows: map<nat, Row>,
    facts: map<nat, Fact>,
    log: seq<nat>,
    dedup: set<nat>,
    relays: map<nat, Relay>)

  const INITIAL: State := State(0, map[], map[], [], {}, map[])

  datatype Step =
    | Insert(id: nat, aggregate: nat, createdAt: nat, maxRetries: nat)
    | Claim(relay: nat, picks: seq<nat>)
    | DedupHit(relay: nat)
    | PublishOk(relay: nat)
    | PublishErr(relay: nat, appended: bool)
    | CacheMark(relay: nat, ok: bool)
    | MarkDone(relay: nat, delete: bool, ok: bool)
    | MarkRetry(relay: nat, ok: bool)
    | Crash(relay: nat)
    | ReleaseStale(timeout: nat)
    | Cleanup(ids: set<nat>)
    | CacheExpire(id: nat)
    | Tick(delta: nat)

  // ── The table's statements ──────────────────────────────────

  /** `event_id` is unique; per aggregate new rows become visible in increasing `created_at`. */
  predicate CanInsert(s: State, id: nat, aggregate: nat, createdAt: nat) {
    id !in s.facts && forall e | e in s.facts :: s.facts[e].aggregate == aggregate ==> s.facts[e].createdAt < createdAt
  }

  predicate Due(row: Row, now: nat) {
    row.status == Pending && row.nextRetryAt <= now
  }

  /** The oldest due row of its aggregate, and nobody holds it. */
  predicate Eligible(rows: map<nat, Row>, now: nat, id: nat) {
    && id in rows && Due(rows[id], now) && rows[id].lockedBy == None
    && forall e | e in rows :: rows[e].aggregate == rows[id].aggregate && Due(rows[e], now) ==>
         rows[id].createdAt <= rows[e].createdAt
  }

  function LockAll(rows: map<nat, Row>, picks: seq<nat>, relay: nat, now: nat): map<nat, Row> {
    map e | e in rows :: if e in picks then rows[e].(lockedBy := Some(relay), lockedAt := now) else rows[e]
  }

  /** Refused by the status trigger for a failed row; nothing to do for a missing one. */
  function MarkPublished(rows: map<nat, Row>, id: nat): map<nat, Row> {
    if id !in rows || rows[id].status == Failed then rows
    else rows[id := rows[id].(status := Published, lockedBy := None)]
  }

  function DeletePublished(rows: map<nat, Row>, id: nat): map<nat, Row> {
    rows - {id}
  }

  function Pow2(n: nat): nat {
    if n == 0 then 1 else 2 * Pow2(n - 1)
  }

  function Min(a: nat, b: nat): nat {
    if a < b then a else b
  }

  /** One more retry with exponential back-off, or failed; the trigger refuses published rows. */
  function MarkRetryOrFailed(rows: map<nat, Row>, id: nat, now: nat): map<nat, Row> {
    if id !in rows || rows[id].status == Published then rows
    else
      var row := rows[id];
      if row.retryCount + 1 >= row.maxRetries then
        rows[id := row.(status := Failed, retryCount := row.retryCount + 1, lockedBy := None)]
      else if row.status == Failed then rows
      else
        rows[id := row.(retryCount := row.retryCount + 1, lockedBy := None,
                        nextRetryAt := now + Pow2(Min(row.retryCount + 1, 10)))]
  }

  function ReleaseStaleLocks(rows: map<nat, Row>, timeout: nat, now: nat): map<nat, Row> {
    map e | e in rows ::
      if rows[e].lockedBy.Some? && rows[e].lockedAt + timeout < now && rows[e].status == Pending
      then rows[e].(lockedBy := None) else rows[e]
  }

  function CleanupPublished(rows: map<nat, Row>, ids: set<nat>): map<nat, Row> {
    map e | e in rows && !(e in ids && rows[e].status == Published) :: rows[e]
  }

  // ── Steps ───────────────────────────────────────────────────

  function RelayOf(s: State, r: nat): Relay {
    if r in s.relays then s.relays[r] else Relay([], Ready)
  }

  predicate At(s: State, r: nat, stage: Stage) {
    RelayOf(s, r).batch != [] && RelayOf(s, r).stage == stage
  }

  function Head(s: State, r: nat): nat
    requires RelayOf(s, r).batch != []
  {
    RelayOf(s, r).batch[0]
  }

  function Enter(s: State, r: nat, stage: Stage): State {
    s.(relays := s.relays[r := RelayOf(s, r).(stage := stage)])
  }

  /** Done with the first event of the batch. */
  function Next(s: State, r: nat): State
    requires RelayOf(s, r).batch != []
  {
    s.(relays := s.relays[r := Relay(RelayOf(s, r).batch[1..], Ready)])
  }

  predicate Distinct(ids: seq<nat>) {
    forall i, j :: 0 <= i < j < |ids| ==> ids[i] != ids[j]
  }

  /** The claim query returns rows, each at most once. */
  predicate CanClaim(s: State, r: nat, picks: seq<nat>) {
    && RelayOf(s, r).batch == [] && Distinct(picks)
    && (forall i :: 0 <= i < |picks| ==> Eligible(s.rows, s.now, picks[i]))
  }

  function Apply(s: State, step: Step): State {
    match step
    case Insert(id, aggregate, createdAt, maxRetries) =>
      if !CanInsert(s, id, aggregate, createdAt) then s
      else
        s.(rows := s.rows[id := Row(aggregate, createdAt, Pending, None, 0, 0, maxRetries, s.now)],
           facts := s.facts[id := Fact(aggregate, createdAt)])
    case Claim(r, picks) =>
      if !CanClaim(s, r, picks) then s
      else s.(rows := LockAll(s.rows, picks, r, s.now), relays := s.relays[r := Relay(picks, Ready)])
    case DedupHit(r) => if At(s, r, Ready) && Head(s, r) in s.dedup then Enter(s, r, Hit) else s
    case PublishOk(r) => if At(s, r, Ready) then Enter(s.(log := s.log + [Head(s, r)]), r, Sent) else s
    case PublishErr(r, appended) =>
      if At(s, r, Ready) then Enter(s.(log := if appended then s.log + [Head(s, r)] else s.log), r, Rejected) else s
    case CacheMark(r, ok) =>
      if At(s, r, Sent) then Enter(s.(dedup := if ok then s.dedup + {Head(s, r)} else s.dedup), r, Cached) else s
    case MarkDone(r, delete, ok) =>
      if At(s, r, Hit) || At(s, r, Cached) then
        var rows := if !ok then s.rows
                    else if delete then DeletePublished(s.rows, Head(s, r))
                    else MarkPublished(s.rows, Head(s, r));
        Next(s.(rows := rows), r)
      else s
    case MarkRetry(r, ok) =>
      if At(s, r, Rejected) then
        Next(s.(rows := if ok then MarkRetryOrFailed(s.rows, Head(s, r), s.now) else s.rows), r)
      else s
    case Crash(r) => s.(relays := s.relays[r := Relay([], Ready)])
    case ReleaseStale(timeout) => s.(rows := ReleaseStaleLocks(s.rows, timeout, s.now))
    case Cleanup(ids) => s.(rows := CleanupPublished(s.rows, ids))
    case CacheExpire(id) => s.(dedup := s.dedup - {id})
    case Tick(delta) => s.(now := s.now + delta)
  }

  function Run(s: State, steps: seq<Step>): State {
    if steps == [] then s else Apply(Run(s, steps[..|steps| - 1]), steps[|steps| - 1])
  }

  // ── Invariant ───────────────────────────────────────────────

  /** Same aggregate, created before. */
  predicate Earlier(s: State, e: nat, id: nat) {
    && e in s.facts && id in s.facts
    && s.facts[e].aggregate == s.facts[id].aggregate && s.facts[e].createdAt < s.facts[id].createdAt
  }

  /** Published at least once, or set back by a failed publish. */
  predicate Cleared(s: State, e: nat) {
    e in s.log || (e in s.rows && s.rows[e].retryCount >= 1)
  }

  ghost predicate Preceded(s: State, id: nat) {
    id in s.facts && forall e | e in s.facts :: Earlier(s, e, id) ==> Cleared(s, e)
  }

  /** Still in the table to be published or looked at, or on the broker log. */
  predicate Kept(s: State, e: nat) {
    e in s.log || (e in s.rows && (s.rows[e].status == Pending || s.rows[e].status == Failed))
  }

  ghost predicate RowOk(s: State, e: nat)
    requires e in s.rows
  {
    && e in s.facts
    && s.facts[e] == Fact(s.rows[e].aggregate, s.rows[e].createdAt)
    && (s.rows[e].status == Published ==> e in s.log)
    && (s.rows[e].status == Failed ==> s.rows[e].retryCount >= 1 && s.rows[e].retryCount >= s.rows[e].maxRetries)
    && (s.rows[e].status == Pending ==> s.rows[e].retryCount == 0 || s.rows[e].retryCount < s.rows[e].maxRetries)
    && (s.rows[e].nextRetryAt > s.now ==> s.rows[e].retryCount >= 1)
  }

  ghost predicate RelayOk(s: State, r: nat) {
    var relay := RelayOf(s, r);
    && (forall i :: 0 <= i < |relay.batch| ==> Preceded(s, relay.batch[i]))
    && (relay.batch != [] && (relay.stage == Hit || relay.stage == Sent || relay.stage == Cached) ==>
          relay.batch[0] in s.log)
  }

  ghost predicate Inv(s: State) {
    && (forall e | e in s.facts :: Kept(s, e))
    && (forall e | e in s.rows :: RowOk(s, e))
    && (forall r: nat :: RelayOk(s, r))
    && (forall e | e in s.dedup :: e in s.log)
    && (forall e | e in s.log :: e in s.facts)
  }

  // ── What every step preserves ───────────────────────────────

  /** Facts and log only grow; rows keep or raise their retry count until published. */
  ghost predicate Grows(s: State, s': State) {
    && s.log <= s'.log
    && (forall e | e in s.facts :: e in s'.facts && s'.facts[e] == s.facts[e])
    && (forall e | e in s.rows && e !in s'.rows :: e in s'.log)
    && (forall e | e in s.rows && e in s'.rows :: s'.rows[e].retryCount >= s.rows[e].retryCount)
  }

  lemma ClearedStays(s: State, s': State, e: nat)
    requires Grows(s, s') && Cleared(s, e)
    ensures Cleared(s', e)
  {
    if e in s.log {
      var i :| 0 <= i < |s.log| && s.log[i] == e;
      assert s'.log[i] == e;
    }
  }

  /** A claim only needs to be justified once. */
  lemma PrecededStays(s: State, s': State, id: nat)
    requires Grows(s, s') && Preceded(s, id)
    requires forall e | e in s'.facts && e !in s.facts :: !Earlier(s', e, id)
    ensures Preceded(s', id)
  {
    forall e | e in s'.facts && Earlier(s', e, id) ensures Cleared(s', e) {
      assert Earlier(s, e, id);
      ClearedStays(s, s', e);
    }
  }

  /** The heart of the ordering guarantee: an eligible row has nothing unpublished before it. */
  lemma EligibleIsPreceded(s: State, id: nat)
    requires Inv(s) && Eligible(s.rows, s.now, id)
    ensures Preceded(s, id)
  {
    assert RowOk(s, id);
    forall e | e in s.facts && Earlier(s, e, id) ensures Cleared(s, e) {
      assert Kept(s, e);
      if e !in s.log {
        assert RowOk(s, e);
        assert !Due(s.rows[e], s.now);
      }
    }
  }

  lemma InsertKeepsInv(s: State, id: nat, aggregate: nat, createdAt: nat, maxRetries: nat)
    requires Inv(s)
    ensures Inv(Apply(s, Insert(id, aggregate, createdAt, maxRetries)))
  {
    var s' := Apply(s, Insert(id, aggregate, createdAt, maxRetries));
    if s' != s {
      forall e | e in s'.facts ensures Kept(s', e) {
        if e != id { assert Kept(s, e); }
      }
      forall e | e in s'.rows ensures RowOk(s', e) {
        if e != id { assert RowOk(s, e); }
      }
      forall r: nat ensures RelayOk(s', r) {
        assert RelayOk(s, r);
        forall i | 0 <= i < |RelayOf(s, r).batch| ensures Preceded(s', RelayOf(s, r).batch[i]) {
          PrecededStays(s, s', RelayOf(s, r).batch[i]);
        }
      }
    }
  }

  /** Rows may change, the relay table and facts do not. */
  lemma RowsWriteKeepsInv(s: State, s': State)
    requires Inv(s) && Grows(s, s') && s'.facts == s.facts && s'.relays == s.relays
    requires forall e | e in s.facts :: Kept(s', e)
    requires forall e | e in s'.rows :: RowOk(s', e)
    requires forall e | e in s'.dedup :: e in s'.log
    requires forall e | e in s'.log :: e in s'.facts
    ensures Inv(s')
  {
    forall r: nat ensures RelayOk(s', r) {
      assert RelayOk(s, r);
      forall i | 0 <= i < |RelayOf(s, r).batch| ensures Preceded(s', RelayOf(s, r).batch[i]) {
        PrecededStays(s, s', RelayOf(s, r).batch[i]);
      }
      if RelayOf(s, r).batch != [] && RelayOf(s, r).batch[0] in s.log {
        ClearedStays(s, s', RelayOf(s, r).batch[0]);
        var i :| 0 <= i < |s.log| && s.log[i] == RelayOf(s, r).batch[0];
        assert s'.log[i] == s.log[i];
      }
    }
  }

  /** Setting one relay to a batch and stage that are in order. */
  lemma RelayWriteKeepsInv(s: State, r: nat, relay: Relay)
    requires Inv(s)
    requires forall i :: 0 <= i < |relay.batch| ==> Preceded(s, relay.batch[i])
    requires relay.batch != [] && (relay.stage == Hit || relay.stage == Sent || relay.stage == Cached) ==>
               relay.batch[0] in s.log
    ensures Inv(s.(relays := s.relays[r := relay]))
  {
    var s' := s.(relays := s.relays[r := relay]);
    forall id | Preceded(s, id) ensures Preceded(s', id) {
      PrecededStays(s, s', id);
    }
    forall q: nat ensures RelayOk(s', q) {
      assert RelayOk(s, q);
    }
    forall e | e in s'.facts ensures Kept(s', e) { assert Kept(s, e); }
    forall e | e in s'.rows ensures RowOk(s', e) { assert RowOk(s, e); }
  }

  lemma ClaimKeepsInv(s: State, r: nat, picks: seq<nat>)
    requires Inv(s)
    ensures Inv(Apply(s, Claim(r, picks)))
  {
    if CanClaim(s, r, picks) {
      forall i | 0 <= i < |picks| ensures Preceded(s, picks[i]) {
        EligibleIsPreceded(s, picks[i]);
      }
      var s1 := s.(rows := LockAll(s.rows, picks, r, s.now));
      forall e | e in s.facts ensures Kept(s1, e) { assert Kept(s, e); }
      forall e | e in s1.rows ensures RowOk(s1, e) { assert RowOk(s, e); }
      RowsWriteKeepsInv(s, s1);
      forall i | 0 <= i < |picks| ensures Preceded(s1, picks[i]) {
        PrecededStays(s, s1, picks[i]);
      }
      RelayWriteKeepsInv(s1, r, Relay(picks, Ready));
    }
  }

  /** Appending the head of a relay's batch to the broker log. */
  lemma AppendKeepsInv(s: State, r: nat)
    requires Inv(s) && RelayOf(s, r).batch != []
    ensures Inv(s.(log := s.log + [Head(s, r)]))
  {
    var s' := s.(log := s.log + [Head(s, r)]);
    assert RelayOk(s, r);
    assert Preceded(s, Head(s, r));
    forall e | e in s.facts ensures Kept(s', e) { assert Kept(s, e); }
    forall e | e in s'.rows ensures RowOk(s', e) { assert RowOk(s, e); }
    RowsWriteKeepsInv(s, s');
  }

  lemma DoneKeepsInv(s: State, id: nat, delete: bool)
    requires Inv(s) && id in s.log
    ensures Inv(s.(rows := if delete then DeletePublished(s.rows, id) else MarkPublished(s.rows, id)))
  {
    var s' := s.(rows := if delete then DeletePublished(s.rows, id) else MarkPublished(s.rows, id));
    forall e | e in s.facts ensures Kept(s', e) { assert Kept(s, e); }
    forall e | e in s'.rows ensures RowOk(s', e) { assert RowOk(s, e); }
    RowsWriteKeepsInv(s, s');
  }

  lemma RetryKeepsInv(s: State, id: nat)
    requires Inv(s)
    ensures Inv(s.(rows := MarkRetryOrFailed(s.rows, id, s.now)))
  {
    var s' := s.(rows := MarkRetryOrFailed(s.rows, id, s.now));
    forall e | e in s.facts ensures Kept(s', e) { assert Kept(s, e); }
    forall e | e in s'.rows ensures RowOk(s', e) { assert RowOk(s, e); }
    RowsWriteKeepsInv(s, s');
  }

  lemma MaintenanceKeepsInv(s: State, step: Step)
    requires Inv(s) && (step.ReleaseStale? || step.Cleanup? || step.CacheExpire? || step.Tick?)
    ensures Inv(Apply(s, step))
  {
    var s' := Apply(s, step);
    forall e | e in s.rows && e !in s'.rows ensures e in s'.log { assert RowOk(s, e); }
    forall e | e in s.facts ensures Kept(s', e) { assert Kept(s, e); }
    forall e | e in s'.rows ensures RowOk(s', e) { assert RowOk(s, e); }
    RowsWriteKeepsInv(s, s');
  }

  /** Moving a relay on to its next event, or to another stage. */
  lemma NextKeepsInv(s: State, r: nat)
    requires Inv(s) && RelayOf(s, r).batch != []
    ensures Inv(Next(s, r))
  {
    assert RelayOk(s, r);
    RelayWriteKeepsInv(s, r, Relay(RelayOf(s, r).batch[1..], Ready));
  }

  lemma EnterKeepsInv(s: State, r: nat, stage: Stage)
    requires Inv(s) && RelayOf(s, r).batch != []
    requires stage == Hit || stage == Sent || stage == Cached ==> Head(s, r) in s.log
    ensures Inv(Enter(s, r, stage))
  {
    assert RelayOk(s, r);
    RelayWriteKeepsInv(s, r, RelayOf(s, r).(stage := stage));
  }

  lemma CacheMarkKeepsInv(s: State, r: nat)
    requires Inv(s) && At(s, r, Sent)
    ensures Inv(s.(dedup := s.dedup + {Head(s, r)}))
  {
    var s' := s.(dedup := s.dedup + {Head(s, r)});
    assert RelayOk(s, r);
    forall e | e in s.facts ensures Kept(s', e) { assert Kept(s, e); }
    forall e | e in s'.rows ensures RowOk(s', e) { assert RowOk(s, e); }
    RowsWriteKeepsInv(s, s');
  }

  lemma StepKeepsInv(s: State, step: Step)
    requires Inv(s)
    ensures Inv(Apply(s, step))
  {
    match step {
      case Insert(id, aggregate, createdAt, maxRetries) => InsertKeepsInv(s, id, aggregate, createdAt, maxRetries);
      case Claim(r, picks) => ClaimKeepsInv(s, r, picks);
      case DedupHit(r) =>
        if At(s, r, Ready) && Head(s, r) in s.dedup {
          EnterKeepsInv(s, r, Hit);
        }
      case PublishOk(r) =>
        if At(s, r, Ready) {
          AppendKeepsInv(s, r);
          EnterKeepsInv(s.(log := s.log + [Head(s, r)]), r, Sent);
        }
      case PublishErr(r, appended) =>
        if At(s, r, Ready) {
          AppendKeepsInv(s, r);
          EnterKeepsInv(if appended then s.(log := s.log + [Head(s, r)]) else s, r, Rejected);
        }
      case CacheMark(r, ok) =>
        if At(s, r, Sent) {
          assert RelayOk(s, r);
          CacheMarkKeepsInv(s, r);
          EnterKeepsInv(if ok then s.(dedup := s.dedup + {Head(s, r)}) else s, r, Cached);
        }
      case MarkDone(r, delete, ok) =>
        if At(s, r, Hit) || At(s, r, Cached) {
          assert RelayOk(s, r);
          if ok {
            DoneKeepsInv(s, Head(s, r), delete);
            var rows := if delete then DeletePublished(s.rows, Head(s, r)) else MarkPublished(s.rows, Head(s, r));
            NextKeepsInv(s.(rows := rows), r);
          } else {
            NextKeepsInv(s, r);
          }
        }
      case MarkRetry(r, ok) =>
        if At(s, r, Rejected) {
          if ok {
            RetryKeepsInv(s, Head(s, r));
            NextKeepsInv(s.(rows := MarkRetryOrFailed(s.rows, Head(s, r), s.now)), r);
          } else {
            NextKeepsInv(s, r);
          }
        }
      case Crash(r) => RelayWriteKeepsInv(s, r, Relay([], Ready));
      case _ => MaintenanceKeepsInv(s, step);
    }
  }

  lemma {:induction false} RunKeepsInv(steps: seq<Step>)
    ensures Inv(Run(INITIAL, steps))
  {
    if steps != [] {
      RunKeepsInv(steps[..|steps| - 1]);
      StepKeepsInv(Run(INITIAL, steps[..|steps| - 1]), steps[|steps| - 1]);
    }
  }

  // ── Theorems ────────────────────────────────────────────────

  /**
   * The outbox never loses an event: for any number of relays, crashes, dedup hits, deletions, cleanups
   * and failed marks, an inserted event is still in the table as pending or failed, or the broker has it.
   */
  lemma NeverLost(steps: seq<Step>, e: nat)
    requires e in Run(INITIAL, steps).facts
    ensures Kept(Run(INITIAL, steps), e)
  {
    RunKeepsInv(steps);
  }

  /**
   * Outbox order: when a relay claims an event, every earlier event of the same aggregate has been
   * published at least once or has been through a failed publish; and this still holds whenever a relay
   * has the event in its hands.
   */
  lemma ClaimsInOrder(steps: seq<Step>, r: nat, i: nat, e: nat)
    requires var s := Run(INITIAL, steps);
             i < |RelayOf(s, r).batch| && Earlier(s, e, RelayOf(s, r).batch[i])
    ensures Cleared(Run(INITIAL, steps), e)
  {
    var s := Run(INITIAL, steps);
    RunKeepsInv(steps);
    assert RelayOk(s, r);
    assert Preceded(s, RelayOf(s, r).batch[i]);
  }

  lemma ClaimIsInOrder(steps: seq<Step>, id: nat, e: nat)
    requires var s := Run(INITIAL, steps); Eligible(s.rows, s.now, id) && Earlier(s, e, id)
    ensures Cleared(Run(INITIAL, steps), e)
  {
    RunKeepsInv(steps);
    EligibleIsPreceded(Run(INITIAL, steps), id);
  }

  // ── What the marks decide ───────────────────────────────────

  /**
   * A refused publish of a pending row: one more retry and no lock; failed exactly when that was the last
   * of its retries, and otherwise pending and due 2, 4, 8 … seconds later, at most 1024.
   */
  lemma RetryDecides(rows: map<nat, Row>, id: nat, now: nat)
    requires id in rows && rows[id].status == Pending
    ensures MarkRetryOrFailed(rows, id, now).Keys == rows.Keys
    ensures forall e | e in rows && e != id :: MarkRetryOrFailed(rows, id, now)[e] == rows[e]
    ensures var before, after := rows[id], MarkRetryOrFailed(rows, id, now)[id];
            && after.retryCount == before.retryCount + 1 && after.lockedBy == None
            && (after.status == Failed <==> before.retryCount + 1 >= before.maxRetries)
            && (after.status == Pending <==> before.retryCount + 1 < before.maxRetries)
            && (after.status == Pending ==> now + 2 <= after.nextRetryAt <= now + 1024)
            && (after.status == Pending && before.retryCount == 0 ==> after.nextRetryAt == now + 2)
            && (after.status == Pending && before.retryCount == 1 ==> after.nextRetryAt == now + 4)
            && (after.status == Pending && before.retryCount >= 9 ==> after.nextRetryAt == now + 1024)
            && after.aggregate == before.aggregate && after.createdAt == before.createdAt
            && after.maxRetries == before.maxRetries
  {
    assert Pow2(1) == 2 && Pow2(2) == 4;
    assert Pow2(10) == 1024 by { assert Pow2(5) == 32; }
    Pow2Rises(1, Min(rows[id].retryCount + 1, 10));
    Pow2Rises(Min(rows[id].retryCount + 1, 10), 10);
  }

  lemma {:induction false} Pow2Rises(a: nat, b: nat)
    requires a <= b
    ensures Pow2(a) <= Pow2(b)
  {
    if a < b { Pow2Rises(a, b - 1); }
  }

  /** A published pending row is gone, or kept as published without its lock; no other row moves. */
  lemma DoneDecides(rows: map<nat, Row>, id: nat)
    requires id in rows && rows[id].status == Pending
    ensures DeletePublished(rows, id).Keys == rows.Keys - {id} && MarkPublished(rows, id).Keys == rows.Keys
    ensures forall e | e in rows && e != id :: DeletePublished(rows, id)[e] == rows[e] == MarkPublished(rows, id)[e]
    ensures MarkPublished(rows, id)[id].status == Published && MarkPublished(rows, id)[id].lockedBy == None
  {
    assert (rows - {id}).Keys == rows.Keys - {id};
  }

  /** In every run a failed row has used up its retries, and a row sent back to pending has some left. */
  lemma FailedOnlyWhenExhausted(steps: seq<Step>, e: nat)
    requires e in Run(INITIAL, steps).rows
    ensures var row := Run(INITIAL, steps).rows[e];
            && (row.status == Failed ==> row.retryCount >= 1 && row.retryCount >= row.maxRetries)
            && (row.status == Pending ==> row.retryCount == 0 || row.retryCount < row.maxRetries)
  {
    RunKeepsInv(steps);
    assert RowOk(Run(INITIAL, steps), e);
  }

  /** A new event can be claimed at once, unless an older one of its aggregate is due. */
  lemma InsertedIsEligible(s: State, id: nat, aggregate: nat, createdAt: nat, maxRetries: nat)
    requires Inv(s) && CanInsert(s, id, aggregate, createdAt)
    ensures var s' := Apply(s, Insert(id, aggregate, createdAt, maxRetries));
            && id in s'.rows && s'.rows[id].retryCount == 0 && s'.rows[id].maxRetries == maxRetries
            && (Eligible(s'.rows, s'.now, id) <==>
                !exists e :: e in s.rows && s.rows[e].aggregate == aggregate && Due(s.rows[e], s.now))
  {
    var s' := Apply(s, Insert(id, aggregate, createdAt, maxRetries));
    forall e | e in s.rows ensures e in s.facts { assert RowOk(s, e); }
    if e :| e in s.rows && s.rows[e].aggregate == aggregate && Due(s.rows[e], s.now) {
      assert RowOk(s, e);
      assert e in s'.rows && s'.rows[e] == s.rows[e];
    }
  }

  // ── Back-off and final rows ─────────────────────────────────

  /** The event is not to be claimed before `t`: its row is gone, no longer pending, or set back that far. */
  predicate NotBefore(s: State, id: nat, t: nat) {
    && id in s.facts
    && (id in s.rows && s.rows[id].status == Pending ==>
          t <= s.rows[id].nextRetryAt && t <= s.now + Pow2(Min(s.rows[id].retryCount + 1, 10)))
  }

  lemma StepKeepsNotBefore(s: State, step: Step, id: nat, t: nat)
    requires NotBefore(s, id, t)
    ensures NotBefore(Apply(s, step), id, t)
  {
    if id in s.rows {
      var n := s.rows[id].retryCount;
      Pow2Rises(Min(n + 1, 10), Min(n + 2, 10));
    }
  }

  lemma {:induction false} RunKeepsNotBefore(s: State, steps: seq<Step>, id: nat, t: nat)
    requires NotBefore(s, id, t)
    ensures NotBefore(Run(s, steps), id, t)
  {
    if steps != [] {
      RunKeepsNotBefore(s, steps[..|steps| - 1], id, t);
      StepKeepsNotBefore(Run(s, steps[..|steps| - 1]), steps[|steps| - 1], id, t);
    }
  }

  /**
   * The back-off holds whatever happens next: after a refused publish at retry count `n` no relay can claim
   * the event until `2^min(n + 1, 10)` seconds have passed.
   */
  lemma BackoffHolds(s: State, r: nat, steps: seq<Step>)
    requires Inv(s) && At(s, r, Rejected) && Head(s, r) in s.rows
    requires var s' := Run(Apply(s, MarkRetry(r, true)), steps);
             s'.now < s.now + Pow2(Min(s.rows[Head(s, r)].retryCount + 1, 10))
    ensures var s' := Run(Apply(s, MarkRetry(r, true)), steps); !Eligible(s'.rows, s'.now, Head(s, r))
  {
    var id := Head(s, r);
    var n := s.rows[id].retryCount;
    var t := s.now + Pow2(Min(n + 1, 10));
    assert RowOk(s, id);
    Pow2Rises(Min(n + 1, 10), Min(n + 2, 10));
    RunKeepsNotBefore(Apply(s, MarkRetry(r, true)), steps, id, t);
  }

  /** A published, failed or deleted event is never claimed again. */
  lemma FinishedIsNeverClaimed(s: State, steps: seq<Step>, id: nat)
    requires id in s.facts && (id in s.rows ==> s.rows[id].status != Pending)
    ensures !Eligible(Run(s, steps).rows, Run(s, steps).now, id)
  {
    RunKeepsNotBefore(s, steps, id, Run(s, steps).now + 1);
  }

  // ── One relay per event ─────────────────────────────────────

  /** A row in a batch is pending and locked by that batch's relay. */
  predicate LockHeld(s: State, r: nat, id: nat) {
    id in s.rows && s.rows[id].status == Pending && s.rows[id].lockedBy == Some(r)
  }

  ghost predicate Held(s: State, r: nat) {
    Distinct(RelayOf(s, r).batch) && forall id | id in RelayOf(s, r).batch :: LockHeld(s, r, id)
  }

  /** A stale-lock release that frees no row a live relay still has in its batch. */
  ghost predicate CarefulRelease(s: State, timeout: nat) {
    forall r: nat, id | id in RelayOf(s, r).batch && id in s.rows :: s.now <= s.rows[id].lockedAt + timeout
  }

  ghost predicate CarefulRun(s: State, steps: seq<Step>) {
    forall n :: 0 <= n < |steps| && steps[n].ReleaseStale? ==> CarefulRelease(Run(s, steps[..n]), steps[n].timeout)
  }

  lemma ClaimKeepsHeld(s: State, r: nat, picks: seq<nat>, q: nat)
    requires (forall q: nat :: Held(s, q)) && CanClaim(s, r, picks)
    ensures Held(Apply(s, Claim(r, picks)), q)
  {
    var s' := Apply(s, Claim(r, picks));
    assert Held(s, q);
    if q == r {
      forall id | id in picks ensures LockHeld(s', r, id) {
        var i :| 0 <= i < |picks| && picks[i] == id;
        assert Eligible(s.rows, s.now, picks[i]);
      }
    } else {
      forall id | id in RelayOf(s, q).batch ensures LockHeld(s', q, id) {
        assert LockHeld(s, q, id);
        assert id !in picks;
      }
    }
  }

  /** Marking the first event of a batch touches no row of another batch. */
  lemma MarkKeepsHeld(s: State, r: nat, rows: map<nat, Row>, q: nat)
    requires (forall q: nat :: Held(s, q)) && RelayOf(s, r).batch != []
    requires forall e | e in s.rows && e != Head(s, r) :: e in rows && rows[e] == s.rows[e]
    ensures Held(Next(s.(rows := rows), r), q)
  {
    var s' := Next(s.(rows := rows), r);
    assert Held(s, q) && Held(s, r) && LockHeld(s, r, Head(s, r));
    forall id | id in RelayOf(s', q).batch ensures LockHeld(s', q, id) {
      assert LockHeld(s, q, id);
      assert id != Head(s, r);
    }
  }

  lemma StepKeepsHeld(s: State, step: Step, q: nat)
    requires forall q: nat :: Held(s, q)
    requires forall e | e in s.rows :: e in s.facts
    requires step.ReleaseStale? ==> CarefulRelease(s, step.timeout)
    ensures Held(Apply(s, step), q)
  {
    assert Held(s, q);
    var s' := Apply(s, step);
    if step.Claim? && CanClaim(s, step.relay, step.picks) {
      ClaimKeepsHeld(s, step.relay, step.picks, q);
    } else if step.MarkDone? && s' != s {
      var rows := if !step.ok then s.rows else if step.delete then DeletePublished(s.rows, Head(s, step.relay))
                  else MarkPublished(s.rows, Head(s, step.relay));
      MarkKeepsHeld(s, step.relay, rows, q);
    } else if step.MarkRetry? && s' != s {
      var rows := if step.ok then MarkRetryOrFailed(s.rows, Head(s, step.relay), s.now) else s.rows;
      MarkKeepsHeld(s, step.relay, rows, q);
    } else {
      forall id | id in RelayOf(s', q).batch ensures LockHeld(s', q, id) {
        assert LockHeld(s, q, id);
      }
    }
  }

  lemma CarefulFront(s: State, steps: seq<Step>)
    requires CarefulRun(s, steps) && steps != []
    ensures CarefulRun(s, steps[..|steps| - 1])
    ensures var last := |steps| - 1;
            steps[last].ReleaseStale? ==> CarefulRelease(Run(s, steps[..last]), steps[last].timeout)
  {
    var front := steps[..|steps| - 1];
    forall k | 0 <= k < |front| && front[k].ReleaseStale? ensures CarefulRelease(Run(s, front[..k]), front[k].timeout) {
      assert front[..k] == steps[..k] && front[k] == steps[k];
    }
  }

  lemma {:induction false} RunKeepsHeld(steps: seq<Step>)
    requires CarefulRun(INITIAL, steps)
    ensures forall q: nat :: Held(Run(INITIAL, steps), q)
  {
    if steps != [] {
      var n := |steps| - 1;
      var front := steps[..n];
      CarefulFront(INITIAL, steps);
      RunKeepsHeld(front);
      RunKeepsInv(front);
      var s := Run(INITIAL, front);
      forall e | e in s.rows ensures e in s.facts { assert RowOk(s, e); }
      forall q: nat ensures Held(Run(INITIAL, steps), q) {
        StepKeepsHeld(s, steps[n], q);
      }
    }
  }

  /** Two relays never have the same event in their batches, while no held lock is released as stale. */
  lemma ClaimedByOne(steps: seq<Step>, r: nat, q: nat, id: nat)
    requires CarefulRun(INITIAL, steps)
    requires id in RelayOf(Run(INITIAL, steps), r).batch && id in RelayOf(Run(INITIAL, steps), q).batch
    ensures r == q
  {
    var s := Run(INITIAL, steps);
    RunKeepsHeld(steps);
    assert Held(s, r) && Held(s, q);
    assert LockHeld(s, r, id) && LockHeld(s, q, id);
  }

  /**
   * Such a release is needed for that: freeing the lock of a row that a live relay still has in hand lets any
   * idle relay take it too, as soon as it is the oldest due row of its aggregate.
   */
  lemma HeldReleaseIsClaimedTwice(s: State, r: nat, q: nat, id: nat, timeout: nat)
    requires id in RelayOf(s, r).batch && LockHeld(s, r, id) && RelayOf(s, q).batch == []
    requires s.rows[id].lockedAt + timeout < s.now && Due(s.rows[id], s.now)
    requires forall e | e in s.rows :: s.rows[e].aggregate == s.rows[id].aggregate && Due(s.rows[e], s.now) ==>
               s.rows[id].createdAt <= s.rows[e].createdAt
    ensures var s' := Apply(Apply(s, ReleaseStale(timeout)), Claim(q, [id]));
            r != q && id in RelayOf(s', r).batch && id in RelayOf(s', q).batch
  {
    var s1 := Apply(s, ReleaseStale(timeout));
    var picks := [id];
    assert Eligible(s1.rows, s1.now, id);
    assert CanClaim(s1, q, picks);
    assert picks[0] == id;
  }

  /** A crashed relay's row is free again exactly when its lock is older than the timeout. */
  lemma CrashedLockIsReleased(s: State, r: nat, id: nat, d: nat, timeout: nat)
    requires CanClaim(s, r, [id])
    ensures var s' := Apply(Apply(Apply(Apply(s, Claim(r, [id])), Crash(r)), Tick(d)), ReleaseStale(timeout));
            && id in s'.rows && Due(s'.rows[id], s'.now)
            && (s'.rows[id].lockedBy == None <==> d > timeout)
  {
    var picks := [id];
    assert Eligible(s.rows, s.now, picks[0]);
    assert id in picks;
  }

  // ── Published once ──────────────────────────────────────────

  /** Nothing breaks: no crash, every mark is written, a refused publish left nothing on the broker. */
  predicate Smooth(step: Step) {
    && !step.Crash? && (step.MarkDone? || step.MarkRetry? ==> step.ok)
    && (step.PublishErr? ==> !step.appended)
  }

  /** The relay has published the first event of its batch and is about to mark it. */
  predicate Marks(s: State, r: nat, e: nat) {
    (At(s, r, Sent) || At(s, r, Cached)) && Head(s, r) == e
  }

  /** A published event whose row is still pending is about to be marked. */
  ghost predicate Settling(s: State, e: nat) {
    e in s.rows && s.rows[e].status == Pending ==> exists r: nat :: Marks(s, r, e)
  }

  ghost predicate Once(s: State) {
    Distinct(s.log) && (forall e | e in s.log :: Settling(s, e)) && (forall r: nat :: Held(s, r))
  }

  lemma HeadNotPublished(s: State, r: nat)
    requires Once(s) && (At(s, r, Ready) || At(s, r, Rejected))
    ensures Head(s, r) !in s.log
  {
    var e := Head(s, r);
    assert Held(s, r) && LockHeld(s, r, e);
    forall q: nat ensures !Marks(s, q, e) {
      assert Held(s, q);
      if q != r && RelayOf(s, q).batch != [] { assert LockHeld(s, q, Head(s, q)); }
    }
    assert !Settling(s, e);
  }

  lemma PublishIsFirst(s: State, r: nat)
    requires Once(s) && At(s, r, Ready)
    ensures var s' := Apply(s, PublishOk(r)); Distinct(s'.log) && forall e | e in s'.log :: Settling(s', e)
  {
    HeadNotPublished(s, r);
    var s' := Apply(s, PublishOk(r));
    assert Marks(s', r, Head(s, r));
    forall e | e in s.log ensures Settling(s', e) {
      assert Settling(s, e);
      forall q: nat | Marks(s, q, e) ensures Marks(s', q, e) { }
    }
  }

  lemma MarkSettles(s: State, step: Step)
    requires Once(s) && Smooth(step) && (step.MarkDone? || step.MarkRetry?)
    ensures forall e | e in s.log :: Settling(Apply(s, step), e)
  {
    var s' := Apply(s, step);
    if s' != s {
      var r := step.relay;
      forall e | e in s.log ensures Settling(s', e) {
        assert Settling(s, e);
        if step.MarkRetry? { HeadNotPublished(s, r); }
        forall q: nat | Marks(s, q, e) && e != Head(s, r) ensures Marks(s', q, e) { }
      }
    }
  }

  lemma StillSettling(s: State, step: Step)
    requires Inv(s) && (forall e | e in s.log :: Settling(s, e)) && Smooth(step)
    requires !step.MarkDone? && !step.MarkRetry? && !step.PublishOk?
    ensures var s' := Apply(s, step); s'.log == s.log && forall e | e in s.log :: Settling(s', e)
  {
    var s' := Apply(s, step);
    forall e | e in s.log ensures Settling(s', e) {
      assert Settling(s, e);
      forall q: nat | Marks(s, q, e) ensures Marks(s', q, e) { }
    }
  }

  lemma StepKeepsOnce(s: State, step: Step)
    requires Inv(s) && Once(s) && Smooth(step) && (step.ReleaseStale? ==> CarefulRelease(s, step.timeout))
    ensures Once(Apply(s, step))
  {
    var s' := Apply(s, step);
    forall e | e in s.rows ensures e in s.facts { assert RowOk(s, e); }
    forall r: nat ensures Held(s', r) { StepKeepsHeld(s, step, r); }
    if step.PublishOk? && At(s, step.relay, Ready) {
      PublishIsFirst(s, step.relay);
    } else if step.MarkDone? || step.MarkRetry? {
      MarkSettles(s, step);
    } else if !step.PublishOk? {
      StillSettling(s, step);
    }
  }

  lemma {:induction false} RunKeepsOnce(steps: seq<Step>)
    requires CarefulRun(INITIAL, steps) && forall n :: 0 <= n < |steps| ==> Smooth(steps[n])
    ensures Once(Run(INITIAL, steps))
  {
    if steps != [] {
      var n := |steps| - 1;
      CarefulFront(INITIAL, steps);
      RunKeepsOnce(steps[..n]);
      RunKeepsInv(steps[..n]);
      StepKeepsOnce(Run(INITIAL, steps[..n]), steps[n]);
    }
  }

  /** While nothing breaks, the broker receives every event at most once, whatever the cache remembers. */
  lemma PublishedOnce(steps: seq<Step>)
    requires CarefulRun(INITIAL, steps) && forall n :: 0 <= n < |steps| ==> Smooth(steps[n])
    ensures Distinct(Run(INITIAL, steps).log)
  {
    RunKeepsOnce(steps);
  }

  // ── Runs without a publish failure ──────────────────────────

  predicate NoFailures(steps: seq<Step>) {
    forall n :: 0 <= n < |steps| ==> !steps[n].PublishErr?
  }

  ghost predicate Unfailed(s: State) {
    && (forall e | e in s.rows :: s.rows[e].retryCount == 0)
    && (forall r: nat :: RelayOf(s, r).stage != Rejected)
  }

  /** Everything earlier than a log entry stands before it in the log. */
  ghost predicate FirstsInOrder(s: State) {
    forall i, e :: 0 <= i < |s.log| && e in s.facts && Earlier(s, e, s.log[i]) ==> e in s.log[..i]
  }

  lemma OrderedStep(s: State, step: Step)
    requires Inv(s) && Unfailed(s) && FirstsInOrder(s) && !step.PublishErr?
    ensures Unfailed(Apply(s, step)) && FirstsInOrder(Apply(s, step))
  {
    var s' := Apply(s, step);
    if step.PublishOk? && At(s, step.relay, Ready) {
      OrderedPublish(s, step.relay);
    } else {
      assert s'.log == s.log;
      forall i, e | 0 <= i < |s'.log| && e in s'.facts && Earlier(s', e, s'.log[i]) ensures e in s'.log[..i] {
        assert s.log[i] in s.facts;
        assert Earlier(s, e, s.log[i]);
      }
    }
    StaysUnfailed(s, step);
  }

  lemma StaysUnfailed(s: State, step: Step)
    requires Unfailed(s) && !step.PublishErr?
    ensures Unfailed(Apply(s, step))
  {
    forall r: nat ensures RelayOf(Apply(s, step), r).stage != Rejected {
      assert RelayOf(s, r).stage != Rejected;
    }
  }

  lemma OrderedPublish(s: State, relay: nat)
    requires Inv(s) && Unfailed(s) && FirstsInOrder(s) && At(s, relay, Ready)
    ensures FirstsInOrder(Apply(s, PublishOk(relay)))
  {
    var s' := Apply(s, PublishOk(relay));
    var id := Head(s, relay);
    assert RelayOk(s, relay) && Preceded(s, id);
    forall i, e | 0 <= i < |s'.log| && e in s'.facts && Earlier(s', e, s'.log[i]) ensures e in s'.log[..i] {
      if i < |s.log| {
        assert Earlier(s, e, s.log[i]) && s'.log[..i] == s.log[..i];
      } else {
        assert Earlier(s, e, id) && s'.log[..i] == s.log;
        assert Cleared(s, e);
      }
    }
  }

  lemma {:induction false} UnfailedRun(steps: seq<Step>)
    requires NoFailures(steps)
    ensures Unfailed(Run(INITIAL, steps)) && FirstsInOrder(Run(INITIAL, steps))
  {
    if steps != [] {
      var front := steps[..|steps| - 1];
      UnfailedRun(front);
      RunKeepsInv(front);
      OrderedStep(Run(INITIAL, front), steps[|steps| - 1]);
    }
  }

  /** Without publish failures, events of one aggregate are first published in creation order. */
  lemma PublishedInOrder(steps: seq<Step>, i: nat, e: nat)
    requires NoFailures(steps)
    requires var s := Run(INITIAL, steps); i < |s.log| && Earlier(s, e, s.log[i])
    ensures exists j :: 0 <= j < i && Run(INITIAL, steps).log[j] == e
  {
    var s := Run(INITIAL, steps);
    UnfailedRun(steps);
    assert e in s.log[..i];
    var j :| 0 <= j < i && s.log[..i][j] == e;
    assert s.log[j] == e;
  }
}
