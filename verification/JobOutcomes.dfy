/** What a handler's answer leads to: for one task, for the attempts of a job, and over every run of the job runner. */
module JobOutcomes {
  import opened Jobs

  // ── Failed jobs ─────────────────────────────────────────────

  predicate FailedAreExhausted(s: State) {
    forall id | id in s.jobs && s.jobs[id].status == Failed :: s.jobs[id].attempts >= s.jobs[id].maxRetries
  }

  lemma WriteKeepsExhausted(s: State, t: nat, dbOk: bool)
    requires FailedAreExhausted(s) && t in s.tasks
    ensures FailedAreExhausted(Written(s, t, dbOk))
  {
  }

  lemma StepKeepsExhausted(s: State, step: Step)
    requires FailedAreExhausted(s)
    ensures FailedAreExhausted(Apply(s, step))
  {
    if step.WriteOutcome? && step.task in s.tasks {
      WriteKeepsExhausted(s, step.task, step.dbOk);
    }
  }

  lemma {:induction false} RunKeepsExhausted(steps: seq<Step>)
    ensures FailedAreExhausted(Run(INITIAL, steps))
  {
    if steps != [] {
      RunKeepsExhausted(steps[..|steps| - 1]);
      StepKeepsExhausted(Run(INITIAL, steps[..|steps| - 1]), steps[|steps| - 1]);
    }
  }

  /** In every run, with crashes, lost writes and stale-lock releases, a failed job has used up its retries. */
  lemma FailedOnlyWhenExhausted(steps: seq<Step>, id: nat)
    requires id in Run(INITIAL, steps).jobs && Run(INITIAL, steps).jobs[id].status == Failed
    ensures Run(INITIAL, steps).jobs[id].attempts >= Run(INITIAL, steps).jobs[id].maxRetries
  {
    RunKeepsExhausted(steps);
  }

  // ── Where a settled status comes from ───────────────────────

  /** A handler of the job answered with `outcome` somewhere in the run. */
  ghost predicate Answered(steps: seq<Step>, id: nat, outcome: Outcome) {
    exists n :: 0 <= n < |steps| && Answers(Run(INITIAL, steps[..n]), steps[n], id, outcome)
  }

  predicate Answers(s: State, step: Step, id: nat, outcome: Outcome) {
    && step.Finish? && step.outcome == outcome
    && step.task in s.tasks && s.tasks[step.task].stage == Executing && s.tasks[step.task].job == id
  }

  lemma AnsweredStays(steps: seq<Step>, id: nat, outcome: Outcome)
    requires steps != [] && Answered(steps[..|steps| - 1], id, outcome)
    ensures Answered(steps, id, outcome)
  {
    var front := steps[..|steps| - 1];
    var n :| 0 <= n < |front| && Answers(Run(INITIAL, front[..n]), front[n], id, outcome);
    assert steps[..n] == front[..n] && steps[n] == front[n];
  }

  lemma AnsweredNow(steps: seq<Step>, id: nat, outcome: Outcome)
    requires steps != [] && Answers(Run(INITIAL, steps[..|steps| - 1]), steps[|steps| - 1], id, outcome)
    ensures Answered(steps, id, outcome)
  {
    assert steps[|steps| - 1] == steps[|steps| - 1];
  }

  /** The status a written answer leaves behind, other than pending and running. */
  function StatusOf(outcome: Outcome): JobStatus
    requires outcome != TimedOut
  {
    match outcome
    case Ok => Completed
    case Transient => Failed
    case Permanent => DeadLettered
  }

  /** The task's handler gave this answer, which is not written yet. */
  predicate Carries(s: State, t: nat, id: nat, outcome: Outcome) {
    && t in s.tasks && s.tasks[t].job == id
    && match outcome
       case Ok => s.tasks[t].stage == Succeeded
       case Transient => s.tasks[t].stage == FailedOnce
       case Permanent => s.tasks[t].stage == FailedForGood
       case TimedOut => false
  }

  /** The table or a task says that the job's handler gave this answer. */
  ghost predicate Tells(s: State, id: nat, outcome: Outcome)
    requires outcome != TimedOut
  {
    (id in s.jobs && s.jobs[id].status == StatusOf(outcome)) || exists t :: Carries(s, t, id, outcome)
  }

  lemma StepCarries(s: State, step: Step, t: nat, id: nat, outcome: Outcome)
    requires Carries(Apply(s, step), t, id, outcome)
    ensures Carries(s, t, id, outcome) || Answers(s, step, id, outcome)
  {
  }

  /** A status that only an answer can leave appears by writing that answer. */
  lemma StepSettles(s: State, step: Step, id: nat, outcome: Outcome)
    requires outcome != TimedOut
    requires id in Apply(s, step).jobs && Apply(s, step).jobs[id].status == StatusOf(outcome)
    ensures (id in s.jobs && s.jobs[id].status == StatusOf(outcome))
            || (step.WriteOutcome? && Carries(s, step.task, id, outcome))
  {
  }

  lemma StepTells(s: State, step: Step, id: nat, outcome: Outcome)
    requires outcome != TimedOut && Tells(Apply(s, step), id, outcome)
    ensures Tells(s, id, outcome) || Answers(s, step, id, outcome)
  {
    if t :| Carries(Apply(s, step), t, id, outcome) {
      StepCarries(s, step, t, id, outcome);
    } else {
      StepSettles(s, step, id, outcome);
    }
  }

  lemma {:induction false} ToldIsAnswered(steps: seq<Step>, id: nat, outcome: Outcome)
    requires outcome != TimedOut && Tells(Run(INITIAL, steps), id, outcome)
    ensures Answered(steps, id, outcome)
  {
    if steps != [] {
      var front := steps[..|steps| - 1];
      StepTells(Run(INITIAL, front), steps[|steps| - 1], id, outcome);
      if Tells(Run(INITIAL, front), id, outcome) {
        ToldIsAnswered(front, id, outcome);
        AnsweredStays(steps, id, outcome);
      } else {
        AnsweredNow(steps, id, outcome);
      }
    }
  }

  /**
   * In every run a completed job's handler answered Ok, a failed one's answered with a transient error, and
   * a dead-lettered one's with a permanent error.
   */
  lemma SettledByItsAnswer(steps: seq<Step>, id: nat)
    requires id in Run(INITIAL, steps).jobs
    ensures var status := Run(INITIAL, steps).jobs[id].status;
            && (status == Completed ==> Answered(steps, id, Ok))
            && (status == Failed ==> Answered(steps, id, Transient))
            && (status == DeadLettered ==> Answered(steps, id, Permanent))
  {
    var s := Run(INITIAL, steps);
    if s.jobs[id].status == Completed {
      assert Tells(s, id, Ok);
      ToldIsAnswered(steps, id, Ok);
    } else if s.jobs[id].status == Failed {
      assert Tells(s, id, Transient);
      ToldIsAnswered(steps, id, Transient);
    } else if s.jobs[id].status == DeadLettered {
      assert Tells(s, id, Permanent);
      ToldIsAnswered(steps, id, Permanent);
    }
  }

  // ── One task, from its answer to its end ────────────────────

  /** Only a recurring job's task knows a definition. */
  predicate DefinedAreRecurring(s: State) {
    && s.jobs.Keys <= s.used && (forall t | t in s.tasks :: s.tasks[t].job in s.used)
    && forall t | t in s.tasks && s.tasks[t].defined && s.tasks[t].job in s.jobs :: s.jobs[s.tasks[t].job].recurring
  }

  lemma JobsStayRecurring(s: State, step: Step, id: nat)
    requires s.jobs.Keys <= s.used
    ensures var s' := Apply(s, step);
            && s.used <= s'.used && s'.jobs.Keys <= s'.used
            && (id in s.used && id in s'.jobs ==> id in s.jobs && s'.jobs[id].recurring == s.jobs[id].recurring)
  {
  }

  lemma TasksStayDefined(s: State, step: Step, t: nat)
    requires t in Apply(s, step).tasks
    ensures var task' := Apply(s, step).tasks[t];
            || (t in s.tasks && task'.job == s.tasks[t].job && task'.defined == s.tasks[t].defined)
            || (task'.job in s.jobs && (task'.defined ==> s.jobs[task'.job].recurring))
  {
  }

  lemma StepKeepsDefined(s: State, step: Step)
    requires DefinedAreRecurring(s)
    ensures DefinedAreRecurring(Apply(s, step))
  {
    var s' := Apply(s, step);
    JobsStayRecurring(s, step, 0);
    forall t | t in s'.tasks
      ensures s'.tasks[t].job in s'.used
      ensures s'.tasks[t].defined && s'.tasks[t].job in s'.jobs ==> s'.jobs[s'.tasks[t].job].recurring
    {
      TasksStayDefined(s, step, t);
      JobsStayRecurring(s, step, s'.tasks[t].job);
    }
  }

  lemma {:induction false} RunKeepsDefined(steps: seq<Step>)
    ensures DefinedAreRecurring(Run(INITIAL, steps))
  {
    if steps != [] {
      RunKeepsDefined(steps[..|steps| - 1]);
      StepKeepsDefined(Run(INITIAL, steps[..|steps| - 1]), steps[|steps| - 1]);
    }
  }

  lemma RunTwo(s: State, a: Step, b: Step)
    ensures Run(s, [a, b]) == Apply(Apply(s, a), b)
  {
    assert [a, b][..1] == [a];
    RunOne(s, a);
  }

  lemma RunOne(s: State, a: Step)
    ensures Run(s, [a]) == Apply(s, a)
  {
    assert [a][..0] == [];
  }

  lemma {:induction false} RunJoins(s: State, xs: seq<Step>, ys: seq<Step>)
    ensures Run(s, xs + ys) == Run(Run(s, xs), ys)
  {
    if ys == [] {
      assert xs + ys == xs;
    } else {
      var n := |ys| - 1;
      assert (xs + ys)[..|xs| + n] == xs + ys[..n];
      RunJoins(s, xs, ys[..n]);
    }
  }

  /** Answer, table write, reset of a recurring slot, and the end of the task. */
  function EndSteps(t: nat, outcome: Outcome, writeOk: bool, resetOk: bool): seq<Step> {
    [Finish(t, outcome), WriteOutcome(t, writeOk)] + [Reset(t, resetOk), Drop(t)]
  }

  /**
   * The row a running job is left with. A slot with a definition starts a new cycle after a success, or after
   * a transient error that was the last under the reset policy. Otherwise Ok completes the job, a transient
   * error sends it back to pending while it has attempts left and fails it else, a permanent one
   * dead-letters it; a timeout, or a lost write, leaves it running.
   */
  predicate Leaves(j: Job, task: Task, outcome: Outcome, writeOk: bool, resetOk: bool, j': Job) {
    var exhausted := j.attempts >= j.maxRetries;
    var newCycle := task.defined && resetOk && (outcome == Ok || (outcome == Transient && exhausted && task.resets));
    && j'.maxRetries == j.maxRetries && j'.recurring == j.recurring
    && (newCycle ==> j'.status == Pending && j'.attempts == 0 && j'.runs == 0)
    && (!newCycle ==> j'.attempts == j.attempts && j'.runs == j.runs)
    && (!newCycle && !writeOk ==> j'.status == Running)
    && (!newCycle && writeOk ==>
          && (j'.status == Completed <==> outcome == Ok)
          && (j'.status == Failed <==> outcome == Transient && exhausted)
          && (j'.status == Pending <==> outcome == Transient && !exhausted)
          && (j'.status == DeadLettered <==> outcome == Permanent)
          && (j'.status == Running <==> outcome == TimedOut))
  }

  /** The table and the stage after a handler's answer and its write. */
  function SettledJobs(jobs: map<nat, Job>, task: Task, outcome: Outcome, writeOk: bool): map<nat, Job> {
    if !writeOk then jobs
    else
      match outcome
      case Ok => MarkCompleted(jobs, task.job)
      case Transient => MarkRetryOrFailed(jobs, task.job)
      case Permanent => MarkDeadLettered(jobs, task.job)
      case TimedOut => jobs
  }

  function SettledStage(jobs: map<nat, Job>, task: Task, outcome: Outcome): Stage {
    match outcome
    case Ok => if task.defined then Resetting else Ending
    case Transient => if task.job in jobs && ResetsAfterFailure(jobs[task.job], task) then Resetting else Ending
    case _ => Ending
  }

  lemma SettledTask(s: State, t: nat, outcome: Outcome, writeOk: bool)
    requires t in s.tasks && s.tasks[t].stage == Executing
    ensures Apply(Apply(s, Finish(t, outcome)), WriteOutcome(t, writeOk))
         == s.(jobs := SettledJobs(s.jobs, s.tasks[t], outcome, writeOk),
               tasks := s.tasks[t := s.tasks[t].(stage := SettledStage(s.jobs, s.tasks[t], outcome))])
  {
    var s1 := Apply(s, Finish(t, outcome));
    var stage := s1.tasks[t].stage;
    assert s1 == s.(tasks := s.tasks[t := s.tasks[t].(stage := stage)]);
    assert forall last :: s1.tasks[t := s1.tasks[t].(stage := last)] == s.tasks[t := s.tasks[t].(stage := last)];
  }

  /** The row after the answer and its write. */
  lemma SettledRow(jobs: map<nat, Job>, task: Task, outcome: Outcome, writeOk: bool)
    requires task.job in jobs && jobs[task.job].status == Running
    ensures var j := jobs[task.job];
            var j' := SettledJobs(jobs, task, outcome, writeOk)[task.job];
            && SettledJobs(jobs, task, outcome, writeOk) == jobs[task.job := j']
            && j' == j.(status := j'.status)
            && (!writeOk ==> j'.status == Running)
            && (writeOk ==>
                  && (j'.status == Completed <==> outcome == Ok)
                  && (j'.status == Failed <==> outcome == Transient && j.attempts >= j.maxRetries)
                  && (j'.status == Pending <==> outcome == Transient && j.attempts < j.maxRetries)
                  && (j'.status == DeadLettered <==> outcome == Permanent)
                  && (j'.status == Running <==> outcome == TimedOut))
  {
    assert jobs[task.job := jobs[task.job]] == jobs;
  }

  /** The end of a task, from the state its write left. */
  lemma ResetAndDropped(s: State, t: nat, resetOk: bool)
    requires t in s.tasks && s.tasks[t].stage in {Resetting, Ending} && s.tasks[t].job in s.jobs
    ensures var s' := Apply(Apply(s, Reset(t, resetOk)), Drop(t));
            var task := s.tasks[t];
            && s'.tasks == s.tasks - {t} && s'.used == s.used && s'.runners == Dropped(s, t).runners
            && s'.jobs == if task.stage == Resetting && resetOk then ResetRecurring(s.jobs, task.job) else s.jobs
  {
    var s3 := Apply(s, Reset(t, resetOk));
    assert s3.tasks[t].stage == Ending && s3.tasks - {t} == s.tasks - {t};
  }

  lemma EndedDecides(s: State, t: nat, outcome: Outcome, writeOk: bool, resetOk: bool)
    requires t in s.tasks && s.tasks[t].stage == Executing && s.tasks[t].job in s.jobs
    requires s.jobs[s.tasks[t].job].status == Running && s.jobs[s.tasks[t].job].attempts == s.tasks[t].attempts
    requires s.tasks[t].defined ==> s.jobs[s.tasks[t].job].recurring
    ensures var s' := Run(s, EndSteps(t, outcome, writeOk, resetOk));
            var id := s.tasks[t].job;
            && s'.tasks == s.tasks - {t} && id in s'.jobs && s'.jobs == s.jobs[id := s'.jobs[id]]
            && s'.runners == Dropped(s, t).runners && s'.used == s.used
            && Leaves(s.jobs[id], s.tasks[t], outcome, writeOk, resetOk, s'.jobs[id])
  {
    var task := s.tasks[t];
    SettledTask(s, t, outcome, writeOk);
    SettledRow(s.jobs, task, outcome, writeOk);
    var s2 := Apply(Apply(s, Finish(t, outcome)), WriteOutcome(t, writeOk));
    ResetAndDropped(s2, t, resetOk);
    EndUnfolds(s, t, outcome, writeOk, resetOk);
    EndedJobsLeave(s.jobs, task, outcome, writeOk, resetOk);
    assert s2.tasks - {t} == s.tasks - {t};
  }

  lemma EndUnfolds(s: State, t: nat, outcome: Outcome, writeOk: bool, resetOk: bool)
    ensures Run(s, EndSteps(t, outcome, writeOk, resetOk))
         == Apply(Apply(Apply(Apply(s, Finish(t, outcome)), WriteOutcome(t, writeOk)), Reset(t, resetOk)), Drop(t))
  {
    var s2 := Apply(Apply(s, Finish(t, outcome)), WriteOutcome(t, writeOk));
    RunTwo(s, Finish(t, outcome), WriteOutcome(t, writeOk));
    RunTwo(s2, Reset(t, resetOk), Drop(t));
    RunJoins(s, [Finish(t, outcome), WriteOutcome(t, writeOk)], [Reset(t, resetOk), Drop(t)]);
  }

  /** The table after the write and the reset. */
  function EndedJobs(jobs: map<nat, Job>, task: Task, outcome: Outcome, writeOk: bool, resetOk: bool): map<nat, Job> {
    var settled := SettledJobs(jobs, task, outcome, writeOk);
    if SettledStage(jobs, task, outcome) == Resetting && resetOk then ResetRecurring(settled, task.job) else settled
  }

  lemma EndedJobsLeave(jobs: map<nat, Job>, task: Task, outcome: Outcome, writeOk: bool, resetOk: bool)
    requires task.job in jobs && jobs[task.job].status == Running && jobs[task.job].attempts == task.attempts
    requires task.defined ==> jobs[task.job].recurring
    ensures var jobs' := EndedJobs(jobs, task, outcome, writeOk, resetOk);
            && task.job in jobs' && jobs' == jobs[task.job := jobs'[task.job]]
            && Leaves(jobs[task.job], task, outcome, writeOk, resetOk, jobs'[task.job])
  {
    SettledRow(jobs, task, outcome, writeOk);
  }

  /**
   * After every run whose stale-lock releases free only jobs nobody holds: what an executing task's answer
   * does to its job, and that it does nothing to the others.
   */
  lemma AnswerDecides(steps: seq<Step>, t: nat, outcome: Outcome, writeOk: bool, resetOk: bool)
    requires CarefulRun(INITIAL, steps)
    requires t in Run(INITIAL, steps).tasks && Run(INITIAL, steps).tasks[t].stage == Executing
    ensures var s := Run(INITIAL, steps);
            var s' := Run(s, EndSteps(t, outcome, writeOk, resetOk));
            var id := s.tasks[t].job;
            && id in s.jobs && id in s'.jobs && s'.jobs == s.jobs[id := s'.jobs[id]]
            && Leaves(s.jobs[id], s.tasks[t], outcome, writeOk, resetOk, s'.jobs[id])
            && s'.tasks == s.tasks - {t}
  {
    var s := Run(INITIAL, steps);
    RunKeepsInv(INITIAL, steps);
    RunKeepsDefined(steps);
    assert Holds(s, ByTask(t), s.tasks[t].job);
    EndedDecides(s, t, outcome, writeOk, resetOk);
  }

  // ── The attempts of a job ───────────────────────────────────

  /** A runner with room for one more job claims this one and spawns its task. */
  function StartSteps(max: nat, r: nat, t: nat, id: nat): seq<Step> {
    [LoadCapacity(r, max), Claim(r, [id])] + [Spawn(r, t, true, false, false)]
  }

  /** After a whole attempt, its answer written. */
  function AfterAttempt(s: State, r: nat, t: nat, id: nat, outcome: Outcome): State {
    Run(Run(s, StartSteps(RunnerOf(s, r).inFlight + 1, r, t, id)), EndSteps(t, outcome, true, true))
  }

  /** The state with the job claimed alone, and then with its task started. */
  function Claimed(s: State, r: nat, id: nat): State
    requires id in s.jobs
  {
    State(s.jobs[id := s.jobs[id].(status := Running, attempts := s.jobs[id].attempts + 1)], s.used,
          s.runners[r := Runner(RunnerOf(s, r).inFlight, Spawning([id], 0))], s.tasks)
  }

  function Started(s: State, r: nat, t: nat, id: nat): State
    requires id in s.jobs
  {
    var j := s.jobs[id];
    State(s.jobs[id := j.(status := Running, attempts := j.attempts + 1, runs := j.runs + 1)], s.used,
          s.runners[r := Runner(RunnerOf(s, r).inFlight + 1, Idle)],
          s.tasks[t := Task(r, id, j.attempts + 1, false, false, Executing)])
  }

  lemma ClaimedAlone(s: State, r: nat, id: nat)
    requires RunnerOf(s, r).mode == Idle && id in s.jobs && s.jobs[id].status == Pending
    ensures Apply(Apply(s, LoadCapacity(r, RunnerOf(s, r).inFlight + 1)), Claim(r, [id])) == Claimed(s, r, id)
  {
    var sa := Apply(s, LoadCapacity(r, RunnerOf(s, r).inFlight + 1));
    assert sa == SetMode(s, r, Claiming(1));
    assert Claimable(sa.jobs, [id], 1) && id in [id];
    assert ClaimAll(s.jobs, [id]) == Claimed(s, r, id).jobs;
  }

  lemma SpawnedAlone(s: State, r: nat, t: nat, id: nat)
    requires id in s.jobs && t !in s.tasks
    ensures Apply(Claimed(s, r, id), Spawn(r, t, true, false, false)) == Started(s, r, t, id)
  {
  }

  lemma StartedAlone(s: State, r: nat, t: nat, id: nat)
    requires RunnerOf(s, r).mode == Idle && id in s.jobs && s.jobs[id].status == Pending && t !in s.tasks
    ensures Run(s, StartSteps(RunnerOf(s, r).inFlight + 1, r, t, id)) == Started(s, r, t, id)
  {
    var max := RunnerOf(s, r).inFlight + 1;
    ClaimedAlone(s, r, id);
    SpawnedAlone(s, r, t, id);
    RunTwo(s, LoadCapacity(r, max), Claim(r, [id]));
    RunOne(Claimed(s, r, id), Spawn(r, t, true, false, false));
    RunJoins(s, [LoadCapacity(r, max), Claim(r, [id])], [Spawn(r, t, true, false, false)]);
  }

  /** One attempt: counted once, and settled by its answer; the runner, tasks and other jobs are as before. */
  predicate Attempted(s: State, s': State, r: nat, id: nat, outcome: Outcome)
    requires id in s.jobs
  {
    var j := s.jobs[id];
    && RunnerOf(s', r) == RunnerOf(s, r) && s'.tasks == s.tasks
    && id in s'.jobs && s'.jobs == s.jobs[id := s'.jobs[id]]
    && s'.jobs[id].attempts == j.attempts + 1 && s'.jobs[id].runs == j.runs + 1
    && s'.jobs[id].maxRetries == j.maxRetries
    && (s'.jobs[id].status == Completed <==> outcome == Ok)
    && (s'.jobs[id].status == Failed <==> outcome == Transient && j.attempts + 1 >= j.maxRetries)
    && (s'.jobs[id].status == Pending <==> outcome == Transient && j.attempts + 1 < j.maxRetries)
    && (s'.jobs[id].status == DeadLettered <==> outcome == Permanent)
    && (s'.jobs[id].status == Running <==> outcome == TimedOut)
  }

  /** A started attempt that ends is an attempt. */
  lemma StartedThenEnded(s: State, s1: State, s': State, r: nat, t: nat, id: nat, outcome: Outcome)
    requires id in s.jobs && t !in s.tasks && s1 == Started(s, r, t, id)
    requires RunnerOf(s, r).mode == Idle
    requires s'.tasks == s1.tasks - {t} && id in s'.jobs && s'.jobs == s1.jobs[id := s'.jobs[id]]
    requires s'.runners == Dropped(s1, t).runners
    requires Leaves(s1.jobs[id], s1.tasks[t], outcome, true, true, s'.jobs[id])
    ensures Attempted(s, s', r, id, outcome)
  {
    assert s1.tasks - {t} == s.tasks;
  }

  lemma AttemptDecides(s: State, r: nat, t: nat, id: nat, outcome: Outcome)
    requires RunnerOf(s, r).mode == Idle && id in s.jobs && s.jobs[id].status == Pending && t !in s.tasks
    ensures Attempted(s, AfterAttempt(s, r, t, id, outcome), r, id, outcome)
  {
    StartedAlone(s, r, t, id);
    var s1 := Started(s, r, t, id);
    EndedDecides(s1, t, outcome, true, true);
    StartedThenEnded(s, s1, Run(s1, EndSteps(t, outcome, true, true)), r, t, id, outcome);
  }

  function AfterTransients(s: State, r: nat, t: nat, id: nat, k: nat): State {
    if k == 0 then s
    else
      var s1 := AfterTransients(s, r, t, id, k - 1);
      AfterAttempt(s1, r, t, id, Transient)
  }

  /** Tried `k` times: pending while tries are left, failed after the last; the runner and tasks are as before. */
  predicate Tried(s: State, s': State, r: nat, id: nat, k: nat)
    requires id in s.jobs
  {
    var tries := if s.jobs[id].maxRetries > 1 then s.jobs[id].maxRetries else 1;
    && RunnerOf(s', r) == RunnerOf(s, r) && s'.tasks == s.tasks && id in s'.jobs
    && s'.jobs[id].attempts == k && s'.jobs[id].runs == s.jobs[id].runs + k
    && s'.jobs[id].maxRetries == s.jobs[id].maxRetries
    && s'.jobs[id].status == (if k == tries then Failed else Pending)
  }

  lemma OnceMore(s: State, s1: State, s': State, r: nat, id: nat, k: nat)
    requires id in s.jobs && k < Bound(s.jobs[id]) && Tried(s, s1, r, id, k) && Attempted(s1, s', r, id, Transient)
    ensures Tried(s, s', r, id, k + 1)
  {
  }

  /**
   * A new job whose handler keeps answering with transient errors is tried exactly max(1, max_retries) times:
   * pending again after every attempt but the last, and failed after that one.
   */
  lemma {:induction false} TransientsAreRetried(s: State, r: nat, t: nat, id: nat, k: nat)
    requires RunnerOf(s, r).mode == Idle && t !in s.tasks
    requires id in s.jobs && s.jobs[id].status == Pending && s.jobs[id].attempts == 0
    requires k <= Bound(s.jobs[id])
    ensures Tried(s, AfterTransients(s, r, t, id, k), r, id, k)
  {
    if k > 0 {
      TransientsAreRetried(s, r, t, id, k - 1);
      var s1 := AfterTransients(s, r, t, id, k - 1);
      AttemptDecides(s1, r, t, id, Transient);
      OnceMore(s, s1, AfterTransients(s, r, t, id, k), r, id, k - 1);
    }
  }

  /** Fewer transient errors than that, then Ok: the job completes at its next attempt. */
  lemma TransientsThenSuccess(s: State, r: nat, t: nat, id: nat, k: nat)
    requires RunnerOf(s, r).mode == Idle && t !in s.tasks
    requires id in s.jobs && s.jobs[id].status == Pending && s.jobs[id].attempts == 0
    requires k < (if s.jobs[id].maxRetries > 1 then s.jobs[id].maxRetries else 1)
    ensures var s1 := AfterTransients(s, r, t, id, k);
            var s' := AfterAttempt(s1, r, t, id, Ok);
            id in s'.jobs && s'.jobs[id].status == Completed && s'.jobs[id].attempts == k + 1
  {
    TransientsAreRetried(s, r, t, id, k);
    AttemptDecides(AfterTransients(s, r, t, id, k), r, t, id, Ok);
  }
}
