/**
 * The persistent job runner: several runners over one job table. Each runner claims up to its free
 * capacity and spawns one task per job; tasks, claims and database errors interleave freely.
 */
module Jobs {
  datatype JobStatus = Pending | Running | Completed | Failed | DeadLettered | Cancelled

  /** `runs` counts the handler runs of the current cycle of the job. */
  datatype Job = Job(status: JobStatus, attempts: nat, maxRetries: nat, recurring: bool, runs: nat)

  /** A task executes its handler, then writes its outcome, then may reset a recurring slot, then ends. */
  datatype Stage = Executing | Succeeded | FailedOnce | FailedForGood | Resetting | Ending

  /** `defined`: the recurring definition was found; `resets`: its failure policy is ResetToNext. */
  datatype Task = Task(runner: nat, job: nat, attempts: nat, defined: bool, resets: bool, stage: Stage)

  datatype Mode = Idle | Claiming(capacity: nat) | Spawning(claimed: seq<nat>, next: nat)

  datatype Runner = Runner(inFlight: nat, mode: Mode)

  datatype State = State(
    jobs: map<nat, Job>,
    used: set<nat>,            // job ids ever inserted
    runners: map<nat, Runner>,
    tasks: map<nat, Task>)

  const INITIAL: State := State(map[], {}, map[], map[])

  datatype Outcome = Ok | Transient | Permanent | TimedOut

  datatype Step =
    | Enqueue(id: nat, maxRetries: nat, recurring: bool)
    | LoadCapacity(runner: nat, maxConcurrent: nat)
    | Claim(runner: nat, picks: seq<nat>)
    | ClaimFails(runner: nat)
    | Spawn(runner: nat, task: nat, handler: bool, defined: bool, resets: bool)
    | Finish(task: nat, outcome: Outcome)
    | WriteOutcome(task: nat, dbOk: bool)
    | Reset(task: nat, dbOk: bool)
    | Panic(task: nat)
    | Drop(task: nat)
    | CrashRunner(runner: nat)
    | CleanupCompleted(ids: set<nat>)
    | ReleaseStale(ids: set<nat>)

  // ── The table's statements ──────────────────────────────────

  /** The status-transition trigger. */
  predicate TriggerAllows(from: JobStatus, to: JobStatus, recurring: bool) {
    || from == to
    || (from == Pending && (to == Running || to == Cancelled))
    || (from == Running && (to == Completed || to == Failed || to == DeadLettered || to == Pending))
    || (to == Pending && (from == DeadLettered || from == Failed || (from == Completed && recurring)))
  }

  /** An UPDATE of one row; refused as a whole when the trigger raises. */
  function Update(jobs: map<nat, Job>, id: nat, j: Job): map<nat, Job> {
    if id in jobs && TriggerAllows(jobs[id].status, j.status, jobs[id].recurring) then jobs[id := j] else jobs
  }

  function MarkCompleted(jobs: map<nat, Job>, id: nat): map<nat, Job> {
    if id in jobs then Update(jobs, id, jobs[id].(status := Completed)) else jobs
  }

  function MarkRetryOrFailed(jobs: map<nat, Job>, id: nat): map<nat, Job> {
    if id in jobs then
      Update(jobs, id, jobs[id].(status := if jobs[id].attempts >= jobs[id].maxRetries then Failed else Pending))
    else jobs
  }

  function MarkDeadLettered(jobs: map<nat, Job>, id: nat): map<nat, Job> {
    if id in jobs then Update(jobs, id, jobs[id].(status := DeadLettered)) else jobs
  }

  /** A new cycle of a recurring slot. */
  function ResetRecurring(jobs: map<nat, Job>, id: nat): map<nat, Job> {
    if id in jobs then Update(jobs, id, jobs[id].(status := Pending, attempts := 0, runs := 0)) else jobs
  }

  function ClaimAll(jobs: map<nat, Job>, picks: seq<nat>): map<nat, Job> {
    map id | id in jobs ::
      if id in picks then jobs[id].(status := Running, attempts := jobs[id].attempts + 1) else jobs[id]
  }

  /** Distinct pending rows, no more than the limit. */
  predicate Claimable(jobs: map<nat, Job>, picks: seq<nat>, limit: nat) {
    && |picks| <= limit
    && (forall i :: 0 <= i < |picks| ==> picks[i] in jobs && jobs[picks[i]].status == Pending)
    && (forall i, k :: 0 <= i < k < |picks| ==> picks[i] != picks[k])
  }

  // ── Steps ───────────────────────────────────────────────────

  function RunnerOf(s: State, r: nat): Runner {
    if r in s.runners then s.runners[r] else Runner(0, Idle)
  }

  function SetMode(s: State, r: nat, mode: Mode): State {
    s.(runners := s.runners[r := RunnerOf(s, r).(mode := mode)])
  }

  function SetStage(s: State, t: nat, stage: Stage): State
    requires t in s.tasks
  {
    s.(tasks := s.tasks[t := s.tasks[t].(stage := stage)])
  }

  /** After a transient failure: the policy resets an exhausted recurring slot. */
  predicate ResetsAfterFailure(j: Job, t: Task) {
    t.defined && t.resets && t.attempts >= j.maxRetries
  }

  function Written(s: State, t: nat, dbOk: bool): State
    requires t in s.tasks
  {
    var task := s.tasks[t];
    match task.stage
    case Succeeded =>
      SetStage(s.(jobs := if dbOk then MarkCompleted(s.jobs, task.job) else s.jobs), t,
               if task.defined then Resetting else Ending)
    case FailedOnce =>
      SetStage(s.(jobs := if dbOk then MarkRetryOrFailed(s.jobs, task.job) else s.jobs), t,
               if task.job in s.jobs && ResetsAfterFailure(s.jobs[task.job], task) then Resetting else Ending)
    case FailedForGood =>
      SetStage(s.(jobs := if dbOk then MarkDeadLettered(s.jobs, task.job) else s.jobs), t, Ending)
    case _ => s
  }

  /** `process_available` handles one claimed job: skip it, or count it in flight and spawn its task. */
  function Spawned(s: State, r: nat, t: nat, handler: bool, defined: bool, resets: bool): State
    requires RunnerOf(s, r).mode.Spawning? && RunnerOf(s, r).mode.next < |RunnerOf(s, r).mode.claimed|
  {
    var mode := RunnerOf(s, r).mode;
    var id := mode.claimed[mode.next];
    var mode' := if mode.next + 1 == |mode.claimed| then Idle else mode.(next := mode.next + 1);
    if !handler || id !in s.jobs then SetMode(s, r, mode')
    else
      State(s.jobs[id := s.jobs[id].(runs := s.jobs[id].runs + 1)], s.used,
            s.runners[r := Runner(RunnerOf(s, r).inFlight + 1, mode')],
            s.tasks[t := Task(r, id, s.jobs[id].attempts, defined && s.jobs[id].recurring, resets, Executing)])
  }

  /** The guard's drop: the task is gone and no longer in flight. */
  function Dropped(s: State, t: nat): State
    requires t in s.tasks
  {
    var r := s.tasks[t].runner;
    var n := RunnerOf(s, r).inFlight;
    s.(tasks := s.tasks - {t}, runners := s.runners[r := RunnerOf(s, r).(inFlight := if n > 0 then n - 1 else 0)])
  }

  function Apply(s: State, step: Step): State {
    match step
    case Enqueue(id, maxRetries, recurring) =>
      if id in s.used then s
      else s.(jobs := s.jobs[id := Job(Pending, 0, maxRetries, recurring, 0)], used := s.used + {id})
    case LoadCapacity(r, max) =>
      if RunnerOf(s, r).mode == Idle && RunnerOf(s, r).inFlight < max
      then SetMode(s, r, Claiming(max - RunnerOf(s, r).inFlight)) else s
    case Claim(r, picks) =>
      if RunnerOf(s, r).mode.Claiming? && Claimable(s.jobs, picks, RunnerOf(s, r).mode.capacity)
      then SetMode(s.(jobs := ClaimAll(s.jobs, picks)), r, if picks == [] then Idle else Spawning(picks, 0)) else s
    case ClaimFails(r) => if RunnerOf(s, r).mode.Claiming? then SetMode(s, r, Idle) else s
    case Spawn(r, t, handler, defined, resets) =>
      var mode := RunnerOf(s, r).mode;
      if mode.Spawning? && mode.next < |mode.claimed| && t !in s.tasks
      then Spawned(s, r, t, handler, defined, resets) else s
    case Finish(t, outcome) =>
      if t !in s.tasks || s.tasks[t].stage != Executing then s
      else
        SetStage(s, t, match outcome
                       case Ok => Succeeded
                       case Transient => FailedOnce
                       case Permanent => FailedForGood
                       case TimedOut => Ending)
    case WriteOutcome(t, dbOk) => if t in s.tasks then Written(s, t, dbOk) else s
    case Reset(t, dbOk) =>
      if t in s.tasks && s.tasks[t].stage == Resetting
      then SetStage(s.(jobs := if dbOk then ResetRecurring(s.jobs, s.tasks[t].job) else s.jobs), t, Ending) else s
    case Panic(t) => if t in s.tasks then SetStage(s, t, Ending) else s
    case Drop(t) => if t in s.tasks && s.tasks[t].stage == Ending then Dropped(s, t) else s
    case CrashRunner(r) =>
      State(s.jobs, s.used, s.runners[r := Runner(0, Idle)],
            map t | t in s.tasks && s.tasks[t].runner != r :: s.tasks[t])
    case CleanupCompleted(ids) =>
      s.(jobs := map id | id in s.jobs && !(id in ids && s.jobs[id].status == Completed) :: s.jobs[id])
    case ReleaseStale(ids) =>
      s.(jobs := map id | id in s.jobs ::
           if id in ids && s.jobs[id].status == Running then s.jobs[id].(status := Pending) else s.jobs[id])
  }

  function Run(s: State, steps: seq<Step>): State {
    if steps == [] then s else Apply(Run(s, steps[..|steps| - 1]), steps[|steps| - 1])
  }

  // ── Who holds a job ─────────────────────────────────────────

  /** A live task, or a position in a runner's list of claimed jobs not yet spawned. */
  datatype Holder = ByTask(task: nat) | ByList(runner: nat, index: nat)

  predicate Holds(s: State, h: Holder, id: nat) {
    match h
    case ByTask(t) => t in s.tasks && s.tasks[t].stage != Ending && s.tasks[t].job == id
    case ByList(r, k) =>
      var mode := RunnerOf(s, r).mode;
      mode.Spawning? && mode.next <= k < |mode.claimed| && mode.claimed[k] == id
  }

  /** At most one holder per job. */
  ghost predicate Exclusive(s: State) {
    forall h1: Holder, h2: Holder, id: nat :: Holds(s, h1, id) && Holds(s, h2, id) ==> h1 == h2
  }

  predicate IsResetting(s: State, h: Holder) {
    h.ByTask? && h.task in s.tasks && s.tasks[h.task].stage == Resetting
  }

  /** A held job is running, or settled and about to be reset; in no case can it be claimed. */
  ghost predicate HeldStatus(s: State) {
    forall h: Holder, id: nat :: Holds(s, h, id) ==>
      && id in s.used
      && (!IsResetting(s, h) ==> id in s.jobs && s.jobs[id].status == Running)
      && (id in s.jobs ==> s.jobs[id].status in {Running, Completed, Failed})
      && (h.ByList? && id in s.jobs ==> s.jobs[id].runs < s.jobs[id].attempts)
      && (h.ByTask? && !IsResetting(s, h) ==> s.jobs[id].attempts == s.tasks[h.task].attempts)
  }

  function Bound(j: Job): nat {
    if j.maxRetries > 1 then j.maxRetries else 1
  }

  ghost predicate JobsKnown(s: State) {
    s.jobs.Keys <= s.used && forall id | id in s.jobs :: s.jobs[id].runs <= s.jobs[id].attempts
  }

  ghost predicate Inv(s: State) {
    Exclusive(s) && HeldStatus(s) && JobsKnown(s)
  }

  /** Attempts stay within the retry limit, and a pending job has one left. */
  predicate Bounded(s: State) {
    forall id | id in s.jobs :: InBound(s.jobs[id])
  }

  /** The step frees, if it is a stale-lock release, only running jobs that nobody holds. */
  ghost predicate Careful(s: State, step: Step) {
    step.ReleaseStale? ==>
      forall id: nat, h: Holder | id in step.ids && id in s.jobs && s.jobs[id].status == Running :: !Holds(s, h, id)
  }

  // ── Preservation ────────────────────────────────────────────

  predicate SameTask(s: State, s': State, h: Holder) {
    h.ByTask? ==> h.task in s.tasks && h.task in s'.tasks && s'.tasks[h.task] == s.tasks[h.task]
  }

  /** Holders do not change, and the rows of held jobs keep their status. */
  lemma SameHolders(s: State, s': State)
    requires Inv(s) && JobsKnown(s') && s.used <= s'.used
    requires forall h: Holder, id: nat :: Holds(s', h, id) ==> Holds(s, h, id) && SameTask(s, s', h)
    requires forall h: Holder, id: nat :: Holds(s', h, id) ==>
               && (id in s.jobs && s.jobs[id].status != Completed ==> id in s'.jobs)
               && (id in s'.jobs ==> id in s.jobs && s'.jobs[id] == s.jobs[id])
    ensures Inv(s')
  {
  }

  lemma ClaimKeepsInv(s: State, r: nat, picks: seq<nat>)
    requires Inv(s)
    ensures Inv(Apply(s, Claim(r, picks)))
  {
    var s' := Apply(s, Claim(r, picks));
    if s' != s {
      forall h: Holder, id: nat | Holds(s', h, id)
        ensures Holds(s, h, id) || (h.ByList? && h.runner == r && h.index < |picks| && picks[h.index] == id)
      {
      }
      forall h: Holder, id: nat | Holds(s, h, id) ensures id !in picks {
      }
    }
  }

  lemma SpawnKeepsInv(s: State, r: nat, t: nat, handler: bool, defined: bool, resets: bool)
    requires Inv(s)
    ensures Inv(Apply(s, Spawn(r, t, handler, defined, resets)))
  {
    var s' := Apply(s, Spawn(r, t, handler, defined, resets));
    var mode := RunnerOf(s, r).mode;
    if mode.Spawning? && mode.next < |mode.claimed| && t !in s.tasks {
      var id0 := mode.claimed[mode.next];
      assert Holds(s, ByList(r, mode.next), id0);
      forall h: Holder, id: nat | Holds(s', h, id)
        ensures (h != ByTask(t) && Holds(s, h, id) && h != ByList(r, mode.next)) || (h == ByTask(t) && id == id0)
      {
      }
    }
  }

  lemma StageKeepsInv(s: State, t: nat, stage: Stage)
    requires Inv(s) && t in s.tasks && s.tasks[t].stage != Ending && stage != Resetting && s.tasks[t].stage != Resetting
    ensures Inv(SetStage(s, t, stage))
  {
    var s' := SetStage(s, t, stage);
    forall h: Holder, id: nat | Holds(s', h, id) ensures Holds(s, h, id) {}
  }

  lemma EndKeepsInv(s: State, t: nat)
    requires Inv(s) && t in s.tasks
    ensures Inv(SetStage(s, t, Ending))
  {
    var s' := SetStage(s, t, Ending);
    forall h: Holder, id: nat | Holds(s', h, id) ensures Holds(s, h, id) && h != ByTask(t) {}
  }

  /** The holder of a job may rewrite its row and let go of it. */
  lemma HolderWrites(s: State, t: nat, j: Job, stage: Stage)
    requires Inv(s) && t in s.tasks && s.tasks[t].stage != Ending && s.tasks[t].job in s.jobs
    requires stage == Ending || (stage == Resetting && j.status in {Running, Completed, Failed})
    requires j.runs <= j.attempts
    ensures Inv(SetStage(s.(jobs := s.jobs[s.tasks[t].job := j]), t, stage))
  {
    var id0 := s.tasks[t].job;
    var s' := SetStage(s.(jobs := s.jobs[id0 := j]), t, stage);
    assert Holds(s, ByTask(t), id0);
    forall h: Holder, id: nat | Holds(s', h, id)
      ensures Holds(s, h, id) && (h == ByTask(t) ==> stage == Resetting) && (h != ByTask(t) ==> id != id0)
    {
      assert Holds(s, h, id);
    }
  }

  lemma ToResettingKeepsInv(s: State, t: nat)
    requires Inv(s) && t in s.tasks && s.tasks[t].stage != Ending
    ensures Inv(SetStage(s, t, Resetting))
  {
    var s' := SetStage(s, t, Resetting);
    forall h: Holder, id: nat | Holds(s', h, id) ensures Holds(s, h, id) {}
  }

  lemma WriteKeepsInv(s: State, t: nat, dbOk: bool)
    requires Inv(s) && t in s.tasks
    ensures Inv(Written(s, t, dbOk))
  {
    var task := s.tasks[t];
    if task.stage in {Succeeded, FailedOnce, FailedForGood} {
      assert Holds(s, ByTask(t), task.job);
      var j := s.jobs[task.job];
      var s' := Written(s, t, dbOk);
      if dbOk {
        HolderWrites(s, t, s'.jobs[task.job], s'.tasks[t].stage);
      } else if s'.tasks[t].stage == Resetting {
        ToResettingKeepsInv(s, t);
      } else {
        EndKeepsInv(s, t);
      }
    }
  }

  lemma ResetKeepsInv(s: State, t: nat, dbOk: bool)
    requires Inv(s)
    ensures Inv(Apply(s, Reset(t, dbOk)))
  {
    if t in s.tasks && s.tasks[t].stage == Resetting {
      var id := s.tasks[t].job;
      var s' := Apply(s, Reset(t, dbOk));
      if dbOk && id in s.jobs {
        HolderWrites(s, t, s'.jobs[id], Ending);
        assert s' == SetStage(s.(jobs := s.jobs[id := s'.jobs[id]]), t, Ending);
      } else {
        EndKeepsInv(s, t);
      }
    }
  }

  lemma DropKeepsInv(s: State, t: nat)
    requires Inv(s)
    ensures Inv(Apply(s, Drop(t)))
  {
    var s' := Apply(s, Drop(t));
    forall h: Holder, id: nat | Holds(s', h, id) ensures Holds(s, h, id) && SameTask(s, s', h) {}
    SameHolders(s, s');
  }

  lemma CrashKeepsInv(s: State, r: nat)
    requires Inv(s)
    ensures Inv(Apply(s, CrashRunner(r)))
  {
    var s' := Apply(s, CrashRunner(r));
    forall h: Holder, id: nat | Holds(s', h, id) ensures Holds(s, h, id) && SameTask(s, s', h) {}
    SameHolders(s, s');
  }

  lemma ModeKeepsInv(s: State, r: nat, mode: Mode)
    requires Inv(s) && !mode.Spawning? && !RunnerOf(s, r).mode.Spawning?
    ensures Inv(SetMode(s, r, mode))
  {
    var s' := SetMode(s, r, mode);
    forall h: Holder, id: nat | Holds(s', h, id) ensures Holds(s, h, id) && SameTask(s, s', h) {}
    SameHolders(s, s');
  }

  lemma TableKeepsInv(s: State, step: Step)
    requires Inv(s) && (step.Enqueue? || step.CleanupCompleted?)
    ensures Inv(Apply(s, step))
  {
    var s' := Apply(s, step);
    forall h: Holder, id: nat | Holds(s', h, id) ensures Holds(s, h, id) && SameTask(s, s', h) {}
    SameHolders(s, s');
  }

  lemma ReleaseKeepsInv(s: State, ids: set<nat>)
    requires Inv(s) && Careful(s, ReleaseStale(ids))
    ensures Inv(Apply(s, ReleaseStale(ids)))
  {
    var s' := Apply(s, ReleaseStale(ids));
    forall h: Holder, id: nat | Holds(s', h, id)
      ensures Holds(s, h, id) && SameTask(s, s', h) && (id in s.jobs ==> s'.jobs[id] == s.jobs[id])
    {
      assert Holds(s, h, id);
    }
    SameHolders(s, s');
  }

  lemma StepKeepsInv(s: State, step: Step)
    requires Inv(s) && Careful(s, step)
    ensures Inv(Apply(s, step))
  {
    match step {
      case LoadCapacity(r, max) =>
        if RunnerOf(s, r).mode == Idle && RunnerOf(s, r).inFlight < max {
          ModeKeepsInv(s, r, Claiming(max - RunnerOf(s, r).inFlight));
        }
      case Claim(r, picks) => ClaimKeepsInv(s, r, picks);
      case ClaimFails(r) =>
        if RunnerOf(s, r).mode.Claiming? {
          ModeKeepsInv(s, r, Idle);
        }
      case Spawn(r, t, handler, defined, resets) => SpawnKeepsInv(s, r, t, handler, defined, resets);
      case Finish(t, outcome) =>
        if t in s.tasks && s.tasks[t].stage == Executing {
          StageKeepsInv(s, t, Apply(s, step).tasks[t].stage);
        }
      case WriteOutcome(t, dbOk) =>
        if t in s.tasks {
          WriteKeepsInv(s, t, dbOk);
        }
      case Reset(t, dbOk) => ResetKeepsInv(s, t, dbOk);
      case Panic(t) =>
        if t in s.tasks {
          EndKeepsInv(s, t);
        }
      case Drop(t) => DropKeepsInv(s, t);
      case CrashRunner(r) => CrashKeepsInv(s, r);
      case ReleaseStale(ids) => ReleaseKeepsInv(s, ids);
      case _ => TableKeepsInv(s, step);
    }
  }

  ghost predicate CarefulRun(s: State, steps: seq<Step>) {
    forall n :: 0 <= n < |steps| ==> Careful(Run(s, steps[..n]), steps[n])
  }

  lemma {:induction false} RunKeepsInv(s: State, steps: seq<Step>)
    requires Inv(s) && CarefulRun(s, steps)
    ensures Inv(Run(s, steps))
  {
    if steps != [] {
      var front := steps[..|steps| - 1];
      assert forall n :: 0 <= n < |front| ==> front[..n] == steps[..n];
      assert CarefulRun(s, front);
      RunKeepsInv(s, front);
      StepKeepsInv(Run(s, front), steps[|steps| - 1]);
    }
  }

  predicate NoStaleRelease(steps: seq<Step>) {
    forall n :: 0 <= n < |steps| ==> !steps[n].ReleaseStale?
  }

  predicate InBound(j: Job) {
    j.attempts <= Bound(j) && (j.status == Pending ==> j.attempts < Bound(j))
  }

  lemma RowKeepsBounded(jobs: map<nat, Job>, id: nat, j: Job)
    requires (forall k | k in jobs :: InBound(jobs[k])) && InBound(j)
    ensures forall k | k in Update(jobs, id, j) :: InBound(Update(jobs, id, j)[k])
  {
  }

  lemma WriteKeepsBounded(s: State, t: nat, dbOk: bool)
    requires Bounded(s) && t in s.tasks
    ensures Bounded(Written(s, t, dbOk))
  {
    var id := s.tasks[t].job;
    if id in s.jobs {
      var j := s.jobs[id];
      assert InBound(j);
      RowKeepsBounded(s.jobs, id, j.(status := Completed));
      RowKeepsBounded(s.jobs, id, j.(status := if j.attempts >= j.maxRetries then Failed else Pending));
      RowKeepsBounded(s.jobs, id, j.(status := DeadLettered));
    }
  }

  lemma ResetKeepsBounded(s: State, t: nat, dbOk: bool)
    requires Bounded(s)
    ensures Bounded(Apply(s, Reset(t, dbOk)))
  {
    if t in s.tasks && s.tasks[t].job in s.jobs {
      RowKeepsBounded(s.jobs, s.tasks[t].job, s.jobs[s.tasks[t].job].(status := Pending, attempts := 0, runs := 0));
    }
  }

  lemma ClaimKeepsBounded(s: State, r: nat, picks: seq<nat>)
    requires Bounded(s)
    ensures Bounded(Apply(s, Claim(r, picks)))
  {
  }

  lemma SpawnKeepsBounded(s: State, r: nat, t: nat, handler: bool, defined: bool, resets: bool)
    requires Bounded(s)
    ensures Bounded(Apply(s, Spawn(r, t, handler, defined, resets)))
  {
  }

  lemma StepKeepsBounded(s: State, step: Step)
    requires Bounded(s) && !step.ReleaseStale?
    ensures Bounded(Apply(s, step))
  {
    match step {
      case Claim(r, picks) => ClaimKeepsBounded(s, r, picks);
      case Spawn(r, t, handler, defined, resets) => SpawnKeepsBounded(s, r, t, handler, defined, resets);
      case WriteOutcome(t, dbOk) =>
        if t in s.tasks {
          WriteKeepsBounded(s, t, dbOk);
        }
      case Reset(t, dbOk) => ResetKeepsBounded(s, t, dbOk);
      case _ =>
    }
  }

  lemma {:induction false} RunKeepsBounded(steps: seq<Step>)
    requires NoStaleRelease(steps)
    ensures Bounded(Run(INITIAL, steps))
  {
    if steps != [] {
      RunKeepsBounded(steps[..|steps| - 1]);
      StepKeepsBounded(Run(INITIAL, steps[..|steps| - 1]), steps[|steps| - 1]);
    }
  }

  // ── Theorems ────────────────────────────────────────────────

  /**
   * In every run whose stale-lock releases free only jobs that nobody holds, such as those of crashed
   * runners, a job is held by at most one task or claim, so by at most one runner.
   */
  lemma HeldOnce(steps: seq<Step>, h1: Holder, h2: Holder, id: nat)
    requires CarefulRun(INITIAL, steps)
    requires Holds(Run(INITIAL, steps), h1, id) && Holds(Run(INITIAL, steps), h2, id)
    ensures h1 == h2
  {
    RunKeepsInv(INITIAL, steps);
  }

  /** Releasing a held running job, in whatever state, lets any runner with room become its second holder. */
  lemma HeldReleaseBreaksExclusion(s: State, ids: set<nat>, h: Holder, id: nat, r: nat, max: nat)
    requires id in ids && id in s.jobs && s.jobs[id].status == Running && Holds(s, h, id)
    requires RunnerOf(s, r).mode == Idle && RunnerOf(s, r).inFlight < max
    ensures var s' := Apply(Apply(Apply(s, ReleaseStale(ids)), LoadCapacity(r, max)), Claim(r, [id]));
            Holds(s', h, id) && Holds(s', ByList(r, 0), id) && h != ByList(r, 0)
  {
    var s1 := Apply(s, ReleaseStale(ids));
    assert s1.jobs[id].status == Pending && Holds(s1, h, id);
    var s2 := Apply(s1, LoadCapacity(r, max));
    assert RunnerOf(s2, r).mode.Claiming? && Claimable(s2.jobs, [id], RunnerOf(s2, r).mode.capacity);
    assert Holds(s2, h, id);
  }

  lemma {:induction false} Unused(ids: set<nat>) returns (r: nat)
    ensures forall id | id in ids :: id < r
    decreases |ids|
  {
    if ids == {} {
      r := 0;
    } else {
      var id :| id in ids;
      var rest := ids - {id};
      r := Unused(rest);
      assert forall x | x in ids :: x == id || x in rest;
      r := if id < r then r else id + 1;
    }
  }

  lemma BreakingFuture(s: State, ids: set<nat>) returns (more: seq<Step>)
    requires !Careful(s, ReleaseStale(ids))
    ensures NoStaleRelease(more) && !Exclusive(Run(Apply(s, ReleaseStale(ids)), more))
  {
    var s1 := Apply(s, ReleaseStale(ids));
    var id: nat, h: Holder :| id in ids && id in s.jobs && s.jobs[id].status == Running && Holds(s, h, id);
    var r := Unused(s.runners.Keys);
    HeldReleaseBreaksExclusion(s, ids, h, id, r, 1);
    more := [LoadCapacity(r, 1), Claim(r, [id])];
    assert more[..1] == [LoadCapacity(r, 1)] && more[..1][..0] == [];
    assert Run(s1, more[..1]) == Apply(s1, more[0]);
    assert Run(s1, more) == Apply(Apply(s1, more[0]), more[1]);
  }

  /**
   * The condition is exact: after any careful run, a stale-lock release keeps every job exclusively held
   * in all futures if and only if it frees only running jobs that nobody holds.
   */
  lemma ReleaseIsSafeExactly(steps: seq<Step>, ids: set<nat>)
    requires CarefulRun(INITIAL, steps)
    ensures var s := Run(INITIAL, steps);
            Careful(s, ReleaseStale(ids))
            <==> forall more: seq<Step> :: NoStaleRelease(more) ==> Exclusive(Run(Apply(s, ReleaseStale(ids)), more))
  {
    var s := Run(INITIAL, steps);
    var s1 := Apply(s, ReleaseStale(ids));
    RunKeepsInv(INITIAL, steps);
    if Careful(s, ReleaseStale(ids)) {
      ReleaseKeepsInv(s, ids);
      forall more: seq<Step> | NoStaleRelease(more) ensures Exclusive(Run(s1, more)) {
        RunKeepsInv(s1, more);
      }
    } else {
      var more := BreakingFuture(s, ids);
      assert NoStaleRelease(more) && !Exclusive(Run(s1, more));
    }
  }

  /** Such a release is reachable: the lock of a job that a task still executes. */
  lemma StaleReleaseLosesExclusion() returns (s: State)
    ensures s == Apply(Apply(Apply(Apply(Apply(Apply(Apply(INITIAL,
      Enqueue(0, 3, false)), LoadCapacity(0, 1)), Claim(0, [0])), Spawn(0, 0, true, false, false)),
      ReleaseStale({0})), LoadCapacity(1, 1)), Claim(1, [0]))
    ensures Holds(s, ByTask(0), 0) && Holds(s, ByList(1, 0), 0)
  {
    var s4 := FirstRunnerStarts();
    HeldReleaseBreaksExclusion(s4, {0}, ByTask(0), 0, 1, 1);
    s := Apply(Apply(Apply(s4, ReleaseStale({0})), LoadCapacity(1, 1)), Claim(1, [0]));
  }

  lemma FirstRunnerStarts() returns (s: State)
    ensures s == Apply(Apply(Apply(Apply(INITIAL,
      Enqueue(0, 3, false)), LoadCapacity(0, 1)), Claim(0, [0])), Spawn(0, 0, true, false, false))
    ensures s.jobs == map[0 := Job(Running, 1, 3, false, 1)] && s.runners == map[0 := Runner(1, Idle)]
    ensures s.tasks == map[0 := Task(0, 0, 1, false, false, Executing)]
  {
    var s2 := Apply(Apply(INITIAL, Enqueue(0, 3, false)), LoadCapacity(0, 1));
    assert s2.runners == map[0 := Runner(0, Claiming(1))];
    var s3 := Apply(s2, Claim(0, [0]));
    assert s3.jobs == map[0 := Job(Running, 1, 3, false, 0)];
    s := Apply(s3, Spawn(0, 0, true, false, false));
  }

  /** The handler runs at most max(1, max_retries) times per one-shot job or recurring cycle. */
  lemma RunsBounded(steps: seq<Step>, id: nat)
    requires NoStaleRelease(steps) && id in Run(INITIAL, steps).jobs
    ensures var j := Run(INITIAL, steps).jobs[id];
            j.runs <= if j.maxRetries > 1 then j.maxRetries else 1
  {
    RunKeepsInv(INITIAL, steps);
    RunKeepsBounded(steps);
  }

  lemma CompletedStepStays(s: State, step: Step, id: nat)
    requires id in s.used && s.jobs.Keys <= s.used
    requires id in s.jobs ==> s.jobs[id].status == Completed && !s.jobs[id].recurring
    ensures var s' := Apply(s, step);
            && id in s'.used && s'.jobs.Keys <= s'.used
            && (id in s'.jobs ==> s'.jobs[id].status == Completed && !s'.jobs[id].recurring)
  {
  }

  /** A completed one-shot job never becomes pending again, stale-lock release or not. */
  lemma {:induction false} CompletedIsFinal(s: State, steps: seq<Step>, id: nat)
    requires id in s.jobs && s.jobs.Keys <= s.used && s.jobs[id].status == Completed && !s.jobs[id].recurring
    ensures var s' := Run(s, steps);
            && id in s'.used && s'.jobs.Keys <= s'.used
            && (id in s'.jobs ==> s'.jobs[id].status == Completed && !s'.jobs[id].recurring)
  {
    if steps != [] {
      CompletedIsFinal(s, steps[..|steps| - 1], id);
      CompletedStepStays(Run(s, steps[..|steps| - 1]), steps[|steps| - 1], id);
    }
  }

  // ── Concurrency bound ───────────────────────────────────────

  ghost function TasksOf(s: State, r: nat): set<nat> {
    set t | t in s.tasks && s.tasks[t].runner == r
  }

  /** Jobs a runner has promised itself room for. */
  function Room(mode: Mode): nat {
    match mode
    case Idle => 0
    case Claiming(c) => c
    case Spawning(claimed, next) => if next <= |claimed| then |claimed| - next else 0
  }

  ghost predicate WithinLimit(s: State, r: nat, max: nat) {
    RunnerOf(s, r).inFlight == |TasksOf(s, r)| && RunnerOf(s, r).inFlight + Room(RunnerOf(s, r).mode) <= max
  }

  /** `r` always loads its own configured limit. */
  predicate UsesLimit(step: Step, r: nat, max: nat) {
    step.LoadCapacity? && step.runner == r ==> step.maxConcurrent == max
  }

  /** No task of `r` comes or goes, and its counter and promised room do not grow. */
  lemma QuietStep(s: State, s': State, r: nat, max: nat)
    requires WithinLimit(s, r, max)
    requires forall t :: (t in s'.tasks && s'.tasks[t].runner == r) <==> (t in s.tasks && s.tasks[t].runner == r)
    requires RunnerOf(s', r).inFlight == RunnerOf(s, r).inFlight
    requires RunnerOf(s', r).inFlight + Room(RunnerOf(s', r).mode) <= max
    ensures WithinLimit(s', r, max)
  {
    assert TasksOf(s', r) == TasksOf(s, r);
  }

  /** One task joins `r`, on room it had. */
  lemma JoiningStep(s: State, s': State, t: nat, r: nat, max: nat)
    requires WithinLimit(s, r, max) && t !in s.tasks
    requires t in s'.tasks && s'.tasks[t].runner == r && s'.tasks - {t} == s.tasks
    requires RunnerOf(s', r).inFlight == RunnerOf(s, r).inFlight + 1
    requires Room(RunnerOf(s', r).mode) + 1 <= Room(RunnerOf(s, r).mode)
    ensures WithinLimit(s', r, max)
  {
    assert forall q :: q in s.tasks ==> q in s'.tasks && s'.tasks[q] == (s'.tasks - {t})[q];
    assert TasksOf(s', r) == TasksOf(s, r) + {t};
  }

  lemma SpawnTakesRoom(s: State, r: nat, t: nat, handler: bool, defined: bool, resets: bool)
    requires RunnerOf(s, r).mode.Spawning? && RunnerOf(s, r).mode.next < |RunnerOf(s, r).mode.claimed|
    ensures var s' := Spawned(s, r, t, handler, defined, resets);
            Room(RunnerOf(s', r).mode) + 1 == Room(RunnerOf(s, r).mode)
  {
  }

  lemma LimitSpawn(s: State, q: nat, t: nat, handler: bool, defined: bool, resets: bool, r: nat, max: nat)
    requires WithinLimit(s, r, max)
    ensures WithinLimit(Apply(s, Spawn(q, t, handler, defined, resets)), r, max)
  {
    var s' := Apply(s, Spawn(q, t, handler, defined, resets));
    var mode := RunnerOf(s, q).mode;
    if mode.Spawning? && mode.next < |mode.claimed| && t !in s.tasks {
      SpawnTakesRoom(s, q, t, handler, defined, resets);
      if !handler || mode.claimed[mode.next] !in s.jobs || q != r {
        assert s'.tasks == s.tasks || (q != r && s'.tasks == s.tasks[t := s'.tasks[t]] && s'.tasks[t].runner == q);
        QuietStep(s, s', r, max);
      } else {
        assert s'.tasks - {t} == s.tasks;
        JoiningStep(s, s', t, r, max);
      }
    }
  }

  lemma LimitDrop(s: State, t: nat, r: nat, max: nat)
    requires WithinLimit(s, r, max)
    ensures WithinLimit(Apply(s, Drop(t)), r, max)
  {
    var s' := Apply(s, Drop(t));
    if t in s.tasks && s.tasks[t].stage == Ending && s.tasks[t].runner == r {
      assert t in TasksOf(s, r);
      assert TasksOf(s', r) == TasksOf(s, r) - {t};
    } else {
      QuietStep(s, s', r, max);
    }
  }

  lemma LimitCrash(s: State, q: nat, r: nat, max: nat)
    requires WithinLimit(s, r, max)
    ensures WithinLimit(Apply(s, CrashRunner(q)), r, max)
  {
    var s' := Apply(s, CrashRunner(q));
    if q == r {
      assert TasksOf(s', r) == {};
    } else {
      QuietStep(s, s', r, max);
    }
  }

  lemma LimitMode(s: State, step: Step, r: nat, max: nat)
    requires WithinLimit(s, r, max) && UsesLimit(step, r, max)
    requires step.LoadCapacity? || step.Claim? || step.ClaimFails?
    ensures WithinLimit(Apply(s, step), r, max)
  {
    QuietStep(s, Apply(s, step), r, max);
  }

  /** A task in another stage, or none touched. */
  predicate OnlyRestaged(s: State, s': State) {
    s'.tasks.Keys == s.tasks.Keys && forall t | t in s.tasks :: s'.tasks[t].runner == s.tasks[t].runner
  }

  lemma StageStepsRestage(s: State, step: Step)
    requires step.Finish? || step.WriteOutcome? || step.Reset? || step.Panic?
    ensures OnlyRestaged(s, Apply(s, step))
  {
  }

  lemma TasksKeepRunners(s: State, step: Step)
    requires !step.Spawn? && !step.Drop? && !step.CrashRunner?
    ensures OnlyRestaged(s, Apply(s, step))
  {
    if step.Finish? || step.WriteOutcome? || step.Reset? || step.Panic? {
      StageStepsRestage(s, step);
    } else {
      assert Apply(s, step).tasks == s.tasks;
    }
  }

  lemma LimitTasks(s: State, step: Step, r: nat, max: nat)
    requires WithinLimit(s, r, max)
    requires !step.LoadCapacity? && !step.Claim? && !step.ClaimFails? && !step.Spawn? && !step.Drop?
    requires !step.CrashRunner?
    ensures WithinLimit(Apply(s, step), r, max)
  {
    var s' := Apply(s, step);
    assert s'.runners == s.runners;
    TasksKeepRunners(s, step);
    QuietStep(s, s', r, max);
  }

  lemma LimitStep(s: State, step: Step, r: nat, max: nat)
    requires WithinLimit(s, r, max) && UsesLimit(step, r, max)
    ensures WithinLimit(Apply(s, step), r, max)
  {
    match step {
      case Spawn(q, t, handler, defined, resets) => LimitSpawn(s, q, t, handler, defined, resets, r, max);
      case Drop(t) => LimitDrop(s, t, r, max);
      case CrashRunner(q) => LimitCrash(s, q, r, max);
      case _ =>
        if step.LoadCapacity? || step.Claim? || step.ClaimFails? {
          LimitMode(s, step, r, max);
        } else {
          LimitTasks(s, step, r, max);
        }
    }
  }

  /**
   * Under any interleaving of claims and task ends, and with crashes and stale-lock release, a runner's
   * in-flight count is the number of its live tasks and never exceeds `max_concurrent_jobs`.
   */
  lemma {:induction false} InFlightBounded(steps: seq<Step>, r: nat, max: nat)
    requires forall n :: 0 <= n < |steps| ==> UsesLimit(steps[n], r, max)
    ensures WithinLimit(Run(INITIAL, steps), r, max)
  {
    if steps == [] {
      assert TasksOf(INITIAL, r) == {};
    } else {
      InFlightBounded(steps[..|steps| - 1], r, max);
      LimitStep(Run(INITIAL, steps[..|steps| - 1]), steps[|steps| - 1], r, max);
    }
  }
}
