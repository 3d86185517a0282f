/** The runner program: claim up to the free capacity, spawn a task per job, and settle each task's outcome. */
module JobRunner {
  import opened Jobs
  import opened JobOutcomes

  /** What the registry says of one claimed job, and the id of the task that would run it. */
  datatype Registration = Registration(task: nat, handler: bool, defined: bool, resets: bool)

  /** The job table and the runner processes' memory. */
  class Scheduler {
    var jobs: map<nat, Job>
    var runners: map<nat, Runner>
    var tasks: map<nat, Task>
    ghost var used: set<nat>

    ghost function State(): Jobs.State
      reads this
    {
      Jobs.State(jobs, used, runners, tasks)
    }

    constructor ()
      ensures State() == INITIAL
    {
      jobs, runners, tasks := map[], map[], map[];
      used := {};
    }

    /** Each picked row starts running and counts an attempt. */
    method ClaimBatch(picks: seq<nat>, limit: nat)
      requires Claimable(jobs, picks, limit)
      modifies this`jobs
      ensures jobs == ClaimAll(old(jobs), picks)
    {
      var n := 0;
      while n < |picks|
        invariant 0 <= n <= |picks|
        invariant jobs == ClaimAll(old(jobs), picks[..n])
      {
        var id := picks[n];
        assert id !in picks[..n];
        jobs := jobs[id := jobs[id].(status := Running, attempts := jobs[id].attempts + 1)];
        assert picks[..n + 1] == picks[..n] + [id];
        n := n + 1;
      }
      assert picks[..|picks|] == picks;
    }

    /** Count the job in flight and start its task, or leave a job without handler as running. */
    method SpawnNext(r: nat, reg: Registration)
      requires RunnerOf(State(), r).mode.Spawning? && reg.task !in tasks
      requires RunnerOf(State(), r).mode.next < |RunnerOf(State(), r).mode.claimed|
      modifies this`jobs, this`runners, this`tasks
      ensures State() == Apply(old(State()), Spawn(r, reg.task, reg.handler, reg.defined, reg.resets))
      ensures tasks.Keys <= old(tasks.Keys) + {reg.task}
      ensures var mode := RunnerOf(old(State()), r).mode;
              RunnerOf(State(), r).mode ==
              if mode.next + 1 == |mode.claimed| then Idle else Spawning(mode.claimed, mode.next + 1)
    {
      var me := runners[r];
      var id := me.mode.claimed[me.mode.next];
      var mode' := if me.mode.next + 1 == |me.mode.claimed| then Idle else me.mode.(next := me.mode.next + 1);
      if reg.handler && id in jobs {
        var job := jobs[id];
        tasks := tasks[reg.task := Task(r, id, job.attempts, reg.defined && job.recurring, reg.resets, Executing)];
        jobs := jobs[id := job.(runs := job.runs + 1)];
        runners := runners[r := Runner(me.inFlight + 1, mode')];
      } else {
        runners := runners[r := me.(mode := mode')];
      }
    }

    /** Read the free capacity and claim up to it; a database error claims nothing. */
    method ClaimUpTo(r: nat, max: nat, picks: seq<nat>, dbUp: bool)
      requires RunnerOf(State(), r).mode == Idle && RunnerOf(State(), r).inFlight < max
      requires Claimable(jobs, picks, max - RunnerOf(State(), r).inFlight)
      modifies this`jobs, this`runners
      ensures State() == Apply(Apply(old(State()), LoadCapacity(r, max)),
                               if dbUp then Claim(r, picks) else ClaimFails(r))
      ensures RunnerOf(State(), r).mode == if dbUp && picks != [] then Spawning(picks, 0) else Idle
    {
      var me := if r in runners then runners[r] else Runner(0, Idle);
      if dbUp {
        ClaimBatch(picks, max - me.inFlight);
      }
      runners := runners[r := me.(mode := if dbUp && picks != [] then Spawning(picks, 0) else Idle)];
    }

    method SpawnAll(r: nat, picks: seq<nat>, regs: seq<Registration>)
      requires picks != [] && RunnerOf(State(), r).mode == Spawning(picks, 0) && FreshTasks(regs, |picks|, tasks.Keys)
      modifies this`jobs, this`runners, this`tasks
      ensures State() == Run(old(State()), Spawns(r, regs)) && RunnerOf(State(), r).mode == Idle
    {
      var n := 0;
      while n < |picks|
        invariant 0 <= n <= |picks|
        invariant used == old(used)
        invariant State() == Run(old(State()), Spawns(r, regs[..n]))
        invariant RunnerOf(State(), r).mode == if n == |picks| then Idle else Spawning(picks, n)
        invariant forall k :: n <= k < |regs| ==> regs[k].task !in tasks
      {
        OneMoreSpawn(old(State()), r, regs, n);
        SpawnNext(r, regs[n]);
        n := n + 1;
      }
      assert regs[..|picks|] == regs;
    }

    /**
     * One wake-up of a runner: nothing at full capacity, otherwise claim up to it and spawn a task for every
     * claimed job. The method is this run of the runner's own steps, and leaves it idle.
     */
    method ProcessAvailable(r: nat, max: nat, picks: seq<nat>, regs: seq<Registration>, dbUp: bool)
      requires RunnerOf(State(), r).mode == Idle && FreshTasks(regs, |picks|, tasks.Keys)
      requires Claimable(jobs, picks, Capacity(State(), r, max))
      modifies this`jobs, this`runners, this`tasks
      ensures State() == Run(old(State()), WakeSteps(old(State()), r, max, picks, regs, dbUp))
      ensures RunnerOf(State(), r).mode == Idle
    {
      ghost var s0 := State();
      if (r in runners && runners[r].inFlight >= max) || max == 0 {
        return;
      }
      ghost var claim := [LoadCapacity(r, max), if dbUp then Claim(r, picks) else ClaimFails(r)];
      RunTwo(s0, claim[0], claim[1]);
      ClaimUpTo(r, max, picks, dbUp);
      if dbUp && picks != [] {
        SpawnAll(r, picks, regs);
        RunJoins(s0, claim, Spawns(r, regs));
      } else {
        assert claim + [] == claim;
      }
    }

    /** The table write of a finished handler; it may be lost. */
    method Settle(t: nat, outcome: Outcome, writeOk: bool)
      requires t in tasks && tasks[t].stage == Executing
      modifies this`jobs, this`tasks
      ensures State() == Apply(Apply(old(State()), Finish(t, outcome)), WriteOutcome(t, writeOk))
      ensures t in tasks && tasks[t].stage in {Resetting, Ending}
    {
      SettledTask(State(), t, outcome, writeOk);
      var task := tasks[t];
      var stage := Ending;
      match outcome {
        case Ok =>
          stage := if task.defined then Resetting else Ending;
          if writeOk {
            jobs := MarkCompleted(jobs, task.job);
          }
        case Transient =>
          stage := if task.job in jobs && ResetsAfterFailure(jobs[task.job], task) then Resetting else Ending;
          if writeOk {
            jobs := MarkRetryOrFailed(jobs, task.job);
          }
        case Permanent =>
          if writeOk {
            jobs := MarkDeadLettered(jobs, task.job);
          }
        case TimedOut =>
      }
      tasks := tasks[t := task.(stage := stage)];
    }

    /** Reset the recurring slot where the outcome calls for it; the write may be lost. */
    method ResetSlot(t: nat, resetOk: bool)
      requires t in tasks && tasks[t].stage in {Resetting, Ending}
      modifies this`jobs, this`tasks
      ensures State() == Apply(old(State()), Reset(t, resetOk))
      ensures t in tasks && tasks[t].stage == Ending
    {
      if tasks[t].stage == Resetting {
        if resetOk {
          jobs := ResetRecurring(jobs, tasks[t].job);
        }
        tasks := tasks[t := tasks[t].(stage := Ending)];
      }
    }

    /** The in-flight guard is dropped with its task. */
    method DropGuard(t: nat)
      requires t in tasks && tasks[t].stage == Ending
      modifies this`tasks, this`runners
      ensures State() == Apply(old(State()), Drop(t)) && t !in tasks
    {
      var r := tasks[t].runner;
      var me := if r in runners then runners[r] else Runner(0, Idle);
      runners := runners[r := me.(inFlight := if me.inFlight > 0 then me.inFlight - 1 else 0)];
      tasks := tasks - {t};
    }

    /** A task from the handler's answer to its end, as the run of its four steps. */
    method RunTask(t: nat, outcome: Outcome, writeOk: bool, resetOk: bool)
      requires t in tasks && tasks[t].stage == Executing
      modifies this`jobs, this`runners, this`tasks
      ensures State() == Run(old(State()), EndSteps(t, outcome, writeOk, resetOk)) && t !in tasks
    {
      ghost var s0 := State();
      Settle(t, outcome, writeOk);
      ghost var s1 := State();
      ResetSlot(t, resetOk);
      DropGuard(t);
      RunTwo(s0, Finish(t, outcome), WriteOutcome(t, writeOk));
      RunTwo(s1, Reset(t, resetOk), Drop(t));
      RunJoins(s0, [Finish(t, outcome), WriteOutcome(t, writeOk)], [Reset(t, resetOk), Drop(t)]);
    }
  }

  /** One new task id per claimed job. */
  predicate FreshTasks(regs: seq<Registration>, count: nat, live: set<nat>) {
    && |regs| == count
    && (forall n :: 0 <= n < |regs| ==> regs[n].task !in live)
    && (forall n, k :: 0 <= n < k < |regs| ==> regs[n].task != regs[k].task)
  }

  function Capacity(s: Jobs.State, r: nat, max: nat): nat {
    if RunnerOf(s, r).inFlight < max then max - RunnerOf(s, r).inFlight else 0
  }

  function SpawnStep(r: nat, reg: Registration): Step {
    Spawn(r, reg.task, reg.handler, reg.defined, reg.resets)
  }

  function Spawns(r: nat, regs: seq<Registration>): seq<Step> {
    if regs == [] then [] else Spawns(r, regs[..|regs| - 1]) + [SpawnStep(r, regs[|regs| - 1])]
  }

  /** The steps of one wake-up. */
  function WakeSteps(
    s: Jobs.State, r: nat, max: nat, picks: seq<nat>, regs: seq<Registration>, dbUp: bool): seq<Step>
  {
    if RunnerOf(s, r).inFlight >= max then []
    else if !dbUp then [LoadCapacity(r, max), ClaimFails(r)]
    else [LoadCapacity(r, max), Claim(r, picks)] + Spawns(r, regs)
  }

  lemma OneMoreSpawn(s: Jobs.State, r: nat, regs: seq<Registration>, n: nat)
    requires n < |regs|
    ensures Run(s, Spawns(r, regs[..n + 1])) == Apply(Run(s, Spawns(r, regs[..n])), SpawnStep(r, regs[n]))
  {
    assert regs[..n + 1][..n] == regs[..n];
    var steps := Spawns(r, regs[..n + 1]);
    assert steps[..|steps| - 1] == Spawns(r, regs[..n]);
  }

  // ── What a wake-up decides ──────────────────────────────────

  /** How many of the first `n` claimed jobs have a handler. */
  function Handled(regs: seq<Registration>, n: nat): nat
    requires n <= |regs|
  {
    if n == 0 then 0 else Handled(regs, n - 1) + if regs[n - 1].handler then 1 else 0
  }

  /** The task a claimed job is given. */
  function TaskFor(jobs: map<nat, Job>, r: nat, id: nat, reg: Registration): Task
    requires id in jobs
  {
    Task(r, id, jobs[id].attempts, reg.defined && jobs[id].recurring, reg.resets, Executing)
  }

  predicate AllIn(jobs: map<nat, Job>, picks: seq<nat>) {
    forall k :: 0 <= k < |picks| ==> picks[k] in jobs
  }

  /** The live tasks after the first `n` claimed jobs. */
  function SpawnedTasks(s: Jobs.State, r: nat, picks: seq<nat>, regs: seq<Registration>, n: nat): map<nat, Task>
    requires n <= |picks| == |regs| && AllIn(s.jobs, picks)
  {
    if n == 0 then s.tasks
    else
      var tasks := SpawnedTasks(s, r, picks, regs, n - 1);
      if regs[n - 1].handler then tasks[regs[n - 1].task := TaskFor(s.jobs, r, picks[n - 1], regs[n - 1])] else tasks
  }

  /** They are the old ones and one per handled job. */
  lemma {:induction false} SpawnedTasksExactly(
    s: Jobs.State, r: nat, picks: seq<nat>, regs: seq<Registration>, n: nat, t: nat)
    requires n <= |picks| == |regs| && AllIn(s.jobs, picks) && FreshTasks(regs, |picks|, s.tasks.Keys)
    ensures var tasks := SpawnedTasks(s, r, picks, regs, n);
            && (t in tasks <==> t in s.tasks || exists k :: 0 <= k < n && regs[k].handler && regs[k].task == t)
            && (t in s.tasks ==> tasks[t] == s.tasks[t])
            && forall k :: 0 <= k < n && regs[k].handler && regs[k].task == t ==>
                 t in tasks && tasks[t] == TaskFor(s.jobs, r, picks[k], regs[k])
  {
    if n > 0 {
      SpawnedTasksExactly(s, r, picks, regs, n - 1, t);
      assert regs[n - 1].task !in s.tasks;
    }
  }

  /** Up to its run count, which a spawned task raises. */
  predicate SameRow(j: Job, j': Job) {
    j' == j.(runs := j'.runs)
  }

  ghost predicate SameRows(jobs: map<nat, Job>, jobs': map<nat, Job>) {
    jobs'.Keys == jobs.Keys && forall id | id in jobs :: SameRow(jobs[id], jobs'[id])
  }

  /** After `n` of the claimed jobs the handled ones have their tasks; of the jobs only run counts changed. */
  ghost predicate SpawnedUpTo(
    s: Jobs.State, s': Jobs.State, r: nat, picks: seq<nat>, regs: seq<Registration>, n: nat)
    requires n <= |picks| == |regs| && AllIn(s.jobs, picks)
  {
    && SameRows(s.jobs, s'.jobs) && s'.tasks == SpawnedTasks(s, r, picks, regs, n)
    && RunnerOf(s', r).inFlight == RunnerOf(s, r).inFlight + Handled(regs, n)
    && RunnerOf(s', r).mode == (if n == |picks| then Idle else Spawning(picks, n))
  }

  lemma SpawnOneMore(s: Jobs.State, s1: Jobs.State, r: nat, picks: seq<nat>, regs: seq<Registration>, n: nat)
    requires n < |picks| == |regs| && AllIn(s.jobs, picks)
    requires FreshTasks(regs, |picks|, s.tasks.Keys) && SpawnedUpTo(s, s1, r, picks, regs, n)
    ensures SpawnedUpTo(s, Apply(s1, SpawnStep(r, regs[n])), r, picks, regs, n + 1)
  {
    SpawnedTasksExactly(s, r, picks, regs, n, regs[n].task);
    assert SameRow(s.jobs[picks[n]], s1.jobs[picks[n]]);
  }

  lemma {:induction false} SpawnsDecide(s: Jobs.State, r: nat, picks: seq<nat>, regs: seq<Registration>, n: nat)
    requires n <= |picks| == |regs| && picks != [] && AllIn(s.jobs, picks)
    requires FreshTasks(regs, |picks|, s.tasks.Keys) && RunnerOf(s, r).mode == Spawning(picks, 0)
    ensures SpawnedUpTo(s, Run(s, Spawns(r, regs[..n])), r, picks, regs, n)
  {
    if n == 0 {
      assert Spawns(r, regs[..n]) == [] && Run(s, []) == s;
    } else {
      SpawnsDecide(s, r, picks, regs, n - 1);
      var s1 := Run(s, Spawns(r, regs[..n - 1]));
      SpawnOneMore(s, s1, r, picks, regs, n - 1);
      OneMoreSpawn(s, r, regs, n - 1);
    }
  }

  /** The state after the claim of a wake-up. */
  function AfterClaim(s: Jobs.State, r: nat, picks: seq<nat>): Jobs.State {
    s.(jobs := ClaimAll(s.jobs, picks), runners := s.runners[r := RunnerOf(s, r).(mode := Spawning(picks, 0))])
  }

  lemma ClaimedAll(s: Jobs.State, r: nat, max: nat, picks: seq<nat>)
    requires RunnerOf(s, r).mode == Idle && RunnerOf(s, r).inFlight < max && picks != []
    requires Claimable(s.jobs, picks, max - RunnerOf(s, r).inFlight)
    ensures Run(s, [LoadCapacity(r, max), Claim(r, picks)]) == AfterClaim(s, r, picks)
  {
    RunTwo(s, LoadCapacity(r, max), Claim(r, picks));
  }

  /**
   * A wake-up with room and a working database sets exactly the claimed jobs running, one attempt more each,
   * and starts one task for every claimed job that has a handler; the in-flight count grows by their number.
   */
  lemma WakeDecides(s: Jobs.State, r: nat, max: nat, picks: seq<nat>, regs: seq<Registration>)
    requires RunnerOf(s, r).mode == Idle && RunnerOf(s, r).inFlight < max && picks != []
    requires Claimable(s.jobs, picks, max - RunnerOf(s, r).inFlight) && FreshTasks(regs, |picks|, s.tasks.Keys)
    ensures AllIn(AfterClaim(s, r, picks).jobs, picks)
    ensures var s' := Run(s, WakeSteps(s, r, max, picks, regs, true));
            && SameRows(ClaimAll(s.jobs, picks), s'.jobs)
            && RunnerOf(s', r) == Runner(RunnerOf(s, r).inFlight + Handled(regs, |regs|), Idle)
            && s'.tasks == SpawnedTasks(AfterClaim(s, r, picks), r, picks, regs, |regs|)
  {
    var claim := [LoadCapacity(r, max), Claim(r, picks)];
    ClaimedAll(s, r, max, picks);
    RunJoins(s, claim, Spawns(r, regs));
    assert AllIn(AfterClaim(s, r, picks).jobs, picks);
    SpawnsDecide(AfterClaim(s, r, picks), r, picks, regs, |regs|);
    assert regs[..|regs|] == regs;
  }
}
