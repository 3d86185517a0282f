/** A circuit breaker with a count-based sliding window, over whole runs of its three calls. */
module CircuitBreaker {
  import opened Common

  /** The threshold is an exact fraction; times are instants of a monotonic clock. */
  datatype Config = Config(windowSize: nat, threshold: real, cooldown: nat)

  datatype Status = Closed | Open | HalfOpen

  datatype State = State(status: Status, window: seq<bool>, openedAt: Option<nat>)

  const NEW: State := State(Closed, [], None)

  datatype Call = Check(now: nat) | Success(now: nat) | Failure(now: nat)

  function Failures(outcomes: seq<bool>): nat {
    if outcomes == [] then 0
    else Failures(outcomes[..|outcomes| - 1]) + if outcomes[|outcomes| - 1] then 0 else 1
  }

  // ── One call ────────────────────────────────────────────────

  function Push(c: Config, window: seq<bool>, success: bool): seq<bool> {
    (if |window| >= c.windowSize && window != [] then window[1..] else window) + [success]
  }

  predicate ShouldTrip(c: Config, window: seq<bool>)
    requires window != []
  {
    |window| >= c.windowSize && Failures(window) as real / |window| as real >= c.threshold
  }

  predicate Allows(c: Config, s: State, now: nat) {
    s.status == Open && s.openedAt.Some? ==> now >= s.openedAt.value + c.cooldown
  }

  function Step(c: Config, s: State, call: Call): State {
    match call
    case Check(now) => if s.status == Open && Allows(c, s, now) then s.(status := HalfOpen) else s
    case Success(_) =>
      var window := Push(c, s.window, true);
      if s.status == HalfOpen then State(Closed, window, None) else s.(window := window)
    case Failure(now) =>
      var window := Push(c, s.window, false);
      if s.status == HalfOpen || (s.status == Closed && ShouldTrip(c, window)) then State(Open, window, Some(now))
      else s.(window := window)
  }

  class Breaker {
    const config: Config
    var status: Status
    var window: seq<bool>
    var openedAt: Option<nat>

    ghost function Value(): State
      reads this
    {
      State(status, window, openedAt)
    }

    constructor (config: Config)
      ensures Value() == NEW && this.config == config
    {
      this.config := config;
      status, window, openedAt := Closed, [], None;
    }

    method Check(now: nat) returns (allowed: bool)
      modifies this`status
      ensures allowed <==> Allows(config, old(Value()), now)
      ensures Value() == Step(config, old(Value()), Call.Check(now))
    {
      match status {
        case Closed => return true;
        case HalfOpen => return true;
        case Open =>
          if openedAt.Some? && now < openedAt.value + config.cooldown {
            return false;
          }
          status := HalfOpen;
          return true;
      }
    }

    method RecordSuccess(now: nat)
      modifies this
      ensures Value() == Step(config, old(Value()), Success(now))
    {
      PushResult(true);
      if status == HalfOpen {
        status, openedAt := Closed, None;
      }
    }

    method RecordRetryableFailure(now: nat)
      modifies this
      ensures Value() == Step(config, old(Value()), Failure(now))
    {
      PushResult(false);
      match status {
        case HalfOpen => status, openedAt := Open, Some(now);
        case Closed =>
          var trip := TripNow();
          if trip {
            status, openedAt := Open, Some(now);
          }
        case Open =>
      }
    }

    method PushResult(success: bool)
      modifies this`window
      ensures window == Push(config, old(window), success)
    {
      if |window| >= config.windowSize {
        if window != [] {
          window := window[1..];
        }
      }
      window := window + [success];
    }

    method TripNow() returns (trip: bool)
      requires window != []
      ensures trip <==> ShouldTrip(config, window)
    {
      if |window| < config.windowSize {
        return false;
      }
      var failures := 0;
      for n := 0 to |window|
        invariant failures == Failures(window[..n])
      {
        assert window[..n + 1][..n] == window[..n];
        if !window[n] {
          failures := failures + 1;
        }
      }
      assert window[..|window|] == window;
      return failures as real / |window| as real >= config.threshold;
    }
  }

  // ── Whole runs ──────────────────────────────────────────────

  function Run(c: Config, calls: seq<Call>): State {
    if calls == [] then NEW else Step(c, Run(c, calls[..|calls| - 1]), calls[|calls| - 1])
  }

  /** All outcomes ever recorded, in order. */
  function Outcomes(calls: seq<Call>): seq<bool> {
    if calls == [] then []
    else
      var before := Outcomes(calls[..|calls| - 1]);
      match calls[|calls| - 1]
      case Check(_) => before
      case Success(_) => before + [true]
      case Failure(_) => before + [false]
  }

  function LastOf(s: seq<bool>, n: nat): seq<bool> {
    if n <= |s| then s[|s| - n..] else s
  }

  /** A window of size zero still keeps the newest outcome. */
  function Kept(c: Config): nat {
    if c.windowSize == 0 then 1 else c.windowSize
  }

  /** The window is always the newest outcomes of the whole run, up to its size. */
  lemma {:induction false} WindowIsNewest(c: Config, calls: seq<Call>)
    ensures Run(c, calls).window == LastOf(Outcomes(calls), Kept(c))
  {
    if calls != [] {
      var before := calls[..|calls| - 1];
      WindowIsNewest(c, before);
      match calls[|calls| - 1] {
        case Check(_) =>
        case Success(_) => PushKeepsNewest(c, Outcomes(before), true);
        case Failure(_) => PushKeepsNewest(c, Outcomes(before), false);
      }
    }
  }

  lemma PushKeepsNewest(c: Config, outcomes: seq<bool>, success: bool)
    ensures Push(c, LastOf(outcomes, Kept(c)), success) == LastOf(outcomes + [success], Kept(c))
  {
  }

  /** An instant is kept exactly while the breaker is not closed, so the fallback of `check` is never taken. */
  lemma {:induction false} OpenCarriesInstant(c: Config, calls: seq<Call>)
    ensures Run(c, calls).openedAt.Some? <==> Run(c, calls).status != Closed
  {
    if calls != [] {
      OpenCarriesInstant(c, calls[..|calls| - 1]);
    }
  }

  /** The call at position `n` turns the breaker open. */
  predicate Opens(c: Config, calls: seq<Call>, n: nat)
    requires n < |calls|
  {
    Run(c, calls[..n]).status != Open && Run(c, calls[..n + 1]).status == Open
  }

  /**
   * A closed breaker opens exactly on a failure after which at least `window_size` outcomes were recorded
   * and the newest of them reach the threshold.
   */
  lemma TripsExactlyAtThreshold(c: Config, calls: seq<Call>, n: nat)
    requires n < |calls| && Run(c, calls[..n]).status == Closed
    ensures Opens(c, calls, n) <==> calls[n].Failure? && ReachesThreshold(c, Outcomes(calls[..n + 1]))
  {
    var recorded := Outcomes(calls[..n + 1]);
    WindowIsNewest(c, calls[..n + 1]);
    assert calls[..n + 1][..n] == calls[..n];
    if calls[n].Failure? {
      ClosedStep(c, Run(c, calls[..n]), calls[n]);
      TripIsThreshold(c, recorded);
    }
  }

  /** Enough outcomes, and the share of failures among the newest is at least the threshold. */
  predicate ReachesThreshold(c: Config, recorded: seq<bool>) {
    && |recorded| >= Kept(c)
    && Failures(LastOf(recorded, Kept(c))) as real >= c.threshold * Kept(c) as real
  }

  lemma ClosedStep(c: Config, s: State, call: Call)
    requires s.status == Closed && call.Failure?
    ensures var s' := Step(c, s, call);
            s'.window != [] && (s'.status == Open <==> ShouldTrip(c, s'.window))
  {
  }

  lemma TripIsThreshold(c: Config, recorded: seq<bool>)
    requires recorded != []
    ensures LastOf(recorded, Kept(c)) != []
    ensures ShouldTrip(c, LastOf(recorded, Kept(c))) <==> ReachesThreshold(c, recorded)
  {
    var window := LastOf(recorded, Kept(c));
    RatioMeets(Failures(window), |window|, c.threshold);
  }

  lemma RatioMeets(a: nat, b: nat, t: real)
    requires b > 0
    ensures a as real / b as real >= t <==> a as real >= t * b as real
  {
    var q := a as real / b as real;
    assert q * b as real == a as real;
  }

  // ── Cooldown ────────────────────────────────────────────────

  predicate ClockIsMonotonic(calls: seq<Call>) {
    forall i, j :: 0 <= i < j < |calls| ==> calls[i].now <= calls[j].now
  }

  lemma OpeningSetsInstant(c: Config, calls: seq<Call>, k: nat)
    requires k < |calls| && Opens(c, calls, k)
    ensures Run(c, calls[..k + 1]).openedAt == Some(calls[k].now)
  {
    assert calls[..k + 1][..k] == calls[..k];
  }

  /** Within the cooldown nothing, not even late results of earlier calls, changes the status. */
  lemma {:induction false} StaysOpen(c: Config, calls: seq<Call>, k: nat, n: nat)
    requires ClockIsMonotonic(calls) && k < n <= |calls| && Opens(c, calls, k)
    requires n > k + 1 ==> calls[n - 1].now < calls[k].now + c.cooldown
    ensures Run(c, calls[..n]).status == Open && Run(c, calls[..n]).openedAt == Some(calls[k].now)
    decreases n
  {
    if n == k + 1 {
      OpeningSetsInstant(c, calls, k);
    } else {
      StaysOpen(c, calls, k, n - 1);
      assert calls[..n][..n - 1] == calls[..n - 1];
    }
  }

  lemma {:induction false} OpenSinceAnOpening(c: Config, calls: seq<Call>, n: nat) returns (k: nat)
    requires n <= |calls| && Run(c, calls[..n]).status == Open
    ensures k < n && Opens(c, calls, k) && Run(c, calls[..n]).openedAt == Some(calls[k].now)
  {
    if n == 0 {
      assert false;
    } else {
      assert calls[..n][..n - 1] == calls[..n - 1];
      if Run(c, calls[..n - 1]).status == Open {
        k := OpenSinceAnOpening(c, calls, n - 1);
      } else {
        k := n - 1;
      }
    }
  }

  /** A check is refused exactly between an opening and the end of that opening's cooldown. */
  lemma RefusedExactlyInCooldown(c: Config, calls: seq<Call>, n: nat)
    requires ClockIsMonotonic(calls) && n < |calls| && calls[n].Check?
    ensures !Allows(c, Run(c, calls[..n]), calls[n].now)
       <==> exists k :: 0 <= k < n && Opens(c, calls, k) && calls[n].now < calls[k].now + c.cooldown
  {
    if !Allows(c, Run(c, calls[..n]), calls[n].now) {
      var k := OpenSinceAnOpening(c, calls, n);
      assert 0 <= k < n && Opens(c, calls, k) && calls[n].now < calls[k].now + c.cooldown;
    }
    if k :| 0 <= k < n && Opens(c, calls, k) && calls[n].now < calls[k].now + c.cooldown {
      assert calls[n - 1].now <= calls[n].now;
      StaysOpen(c, calls, k, n);
    }
  }

  /** Some opening's cooldown still runs when the call at position `n` is made. */
  ghost predicate Cooling(c: Config, calls: seq<Call>, n: nat)
    requires n < |calls|
  {
    exists k :: 0 <= k < n && Opens(c, calls, k) && calls[n].now < calls[k].now + c.cooldown
  }

  /**
   * The whole state machine: a check moves an open breaker to half-open exactly when no cooldown runs any
   * more; a success closes it exactly from half-open; a failure opens it from half-open, and from closed
   * exactly at the threshold. Nothing else changes the status.
   */
  lemma StatusExactly(c: Config, calls: seq<Call>, n: nat)
    requires ClockIsMonotonic(calls) && n < |calls|
    ensures var before, after := Run(c, calls[..n]).status, Run(c, calls[..n + 1]).status;
            match calls[n]
            case Check(_) => after == (if before == Open && !Cooling(c, calls, n) then HalfOpen else before)
            case Success(_) => after == (if before == HalfOpen then Closed else before)
            case Failure(_) =>
              var trips := before == Closed && ReachesThreshold(c, Outcomes(calls[..n + 1]));
              after == (if before == HalfOpen || trips then Open else before)
  {
    assert calls[..n + 1][..n] == calls[..n];
    if calls[n].Check? {
      RefusedExactlyInCooldown(c, calls, n);
    } else if Run(c, calls[..n]).status == Closed {
      TripsExactlyAtThreshold(c, calls, n);
    }
  }

  /** From half-open the next recorded outcome decides: success closes, failure opens anew. */
  lemma ProbeDecides(c: Config, calls: seq<Call>, n: nat)
    requires n < |calls| && Run(c, calls[..n]).status == HalfOpen && !calls[n].Check?
    ensures Run(c, calls[..n + 1]).status == if calls[n].Success? then Closed else Open
    ensures Opens(c, calls, n) <==> calls[n].Failure?
  {
    assert calls[..n + 1][..n] == calls[..n];
  }
}
