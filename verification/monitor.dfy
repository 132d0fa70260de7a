/**
 * The probe loop: the single writer of the `healthy` and `status` flags. It
 * runs probe cycles, sleeping before every cycle but the first, until a
 * structural failure makes it mark the monitor unhealthy and return.
 */
module Monitor {
  import opened Engine
  import opened Flags
  import opened Steps
  import opened Probe

  /** Seconds the loop sleeps after a failed test pull or push. */
  const BackoffSeconds: nat := 30

  /** The duration the loop starts with; the first cycle does not sleep, so it is never slept. */
  const InitialDurationSeconds: nat := 120

  /**
   * Whether the loop keeps running. `Halted`: the loop has returned after a
   * structural failure while the process goes on serving its endpoints.
   * `Exited` and `Crashed`: a step ended the whole process. `Crashed` is
   * the ending of a panicking step, such as the delete step as written; the
   * loop, which uses the corrected delete step, never reaches it.
   */
  datatype Phase = Running | Halted | Exited(code: int) | Crashed

  /**
   * Everything the loop writes: the two flags, the current sleep duration,
   * whether the next cycle is the first, the four metric event counts and,
   * as observations of the model, the number of cycles begun and the
   * durations slept. The engine calls of a cycle are in its `CycleRun`.
   */
  datatype MonitorState = MonitorState(
    healthy: bool,
    status: bool,
    duration: nat,
    firstLoop: bool,
    phase: Phase,
    cycles: nat,
    successes: nat,
    failures: nat,
    pullTimes: nat,
    pushTimes: nat,
    sleeps: seq<nat>)

  /**
   * The state when the loop is launched: healthy, the first cycle pending, the
   * 120-second duration, and `status` still at its zero value, false.
   */
  function Init(): (r: MonitorState)
    ensures r.healthy && !r.status && r.firstLoop && r.phase == Running
    ensures r.duration == InitialDurationSeconds && r.cycles == 0 && r.sleeps == []
    ensures r.successes == r.failures == r.pullTimes == r.pushTimes == 0
  {
    MonitorState(true, false, InitialDurationSeconds, true, Running, 0, 0, 0, 0, 0, [])
  }

  /** The top of each iteration: sleep for the current duration unless this is the first cycle, then set `status`. */
  function Begin(s: MonitorState): (r: MonitorState)
    ensures r.status && !r.firstLoop && r.cycles == s.cycles + 1
    ensures s.firstLoop ==> r.sleeps == s.sleeps
    ensures !s.firstLoop ==> r.sleeps == s.sleeps + [s.duration]
    ensures r == s.(status := r.status, firstLoop := r.firstLoop, cycles := r.cycles, sleeps := r.sleeps)
  {
    s.(sleeps := if s.firstLoop then s.sleeps else s.sleeps + [s.duration],
       firstLoop := false, status := true, cycles := s.cycles + 1)
  }

  /**
   * The state changes that follow a cycle's ending: a success restores the
   * configured interval and reports the push time and a success; a transient
   * failure backs off to 30 seconds and reports a failure; a structural
   * failure clears `healthy` and stops the loop; a process end stops
   * everything.
   */
  function Settle(cfg: Config, s: MonitorState, outcome: CycleOutcome): (r: MonitorState)
    ensures r.sleeps == s.sleeps && r.cycles == s.cycles && r.firstLoop == s.firstLoop && r.pullTimes == s.pullTimes
    ensures r.healthy <==> s.healthy && !outcome.StructuralFailure?
    ensures r.phase == Running <==> s.phase == Running && (outcome.Success? || outcome.TransientFailure?)
    ensures r.status == (if outcome.Success? then true else if outcome.TransientFailure? then false else s.status)
    ensures r.successes + r.failures == s.successes + s.failures + (if outcome.Success? || outcome.TransientFailure? then 1 else 0)
    ensures r.pushTimes == s.pushTimes + (if outcome.Success? then 1 else 0)
  {
    match outcome
    case Success =>
      s.(duration := cfg.intervalSeconds, status := true, successes := s.successes + 1, pushTimes := s.pushTimes + 1)
    case TransientFailure(_) =>
      s.(duration := BackoffSeconds, status := false, failures := s.failures + 1)
    case StructuralFailure(_) =>
      s.(healthy := false, phase := Halted)
    case ProcessEnded(_, how) =>
      s.(phase := if how.ProcessExit? then Exited(how.code) else Crashed)
  }

  /**
   * One iteration of the loop, given the engine's answers: the pull time is
   * reported as soon as the test pull succeeds, the rest once the cycle has
   * ended.
   */
  function Cycle(cfg: Config, s: MonitorState, o: ProbeAnswers): (r: MonitorState)
    ensures r.cycles == s.cycles + 1 && !r.firstLoop
    ensures r.healthy ==> s.healthy
    ensures r.status <==> !RunProbe(cfg, s.healthy, o).outcome.TransientFailure?
    ensures r.pullTimes == s.pullTimes + (if o.pullTest == Ok then 1 else 0)
  {
    var b := Begin(s);
    var outcome := RunProbe(cfg, s.healthy, o).outcome;
    Settle(cfg, if outcome == TransientFailure(PullTest) then b else b.(pullTimes := b.pullTimes + 1), outcome)
  }

  /** The loop over a sequence of cycles' answers; once it has stopped, later answers are ignored. */
  function RunAll(cfg: Config, s: MonitorState, os: seq<ProbeAnswers>): (r: MonitorState)
    ensures s.sleeps <= r.sleeps
    ensures s.cycles <= r.cycles
    decreases |os|
  {
    if os == [] then s
    else
      var before := RunAll(cfg, s, os[..|os| - 1]);
      if before.phase == Running then Cycle(cfg, before, os[|os| - 1]) else before
  }

  /** Every duration slept so far is the backoff or the configured interval. */
  ghost predicate SleepsOk(cfg: Config, sleeps: seq<nat>)
  {
    forall i :: 0 <= i < |sleeps| ==> sleeps[i] == BackoffSeconds || sleeps[i] == cfg.intervalSeconds
  }

  /**
   * What holds of every state the loop reaches: `healthy` is false exactly
   * when the loop has halted; every cycle but the first was preceded by one
   * sleep, of 30 seconds or the configured interval, and so is the next one;
   * every cycle begun ended in exactly one of success, failure or stop; push
   * times are reported once per success, pull times at least as often.
   */
  ghost predicate Inv(cfg: Config, s: MonitorState)
  {
    && (s.healthy <==> s.phase != Halted)
    && (s.firstLoop <==> s.cycles == 0)
    && (s.firstLoop ==> s.phase == Running && s.sleeps == [])
    && (!s.firstLoop ==> |s.sleeps| == s.cycles - 1)
    && (s.phase == Running && !s.firstLoop ==> s.duration == BackoffSeconds || s.duration == cfg.intervalSeconds)
    && SleepsOk(cfg, s.sleeps)
    && s.successes + s.failures + (if s.phase == Running then 0 else 1) == s.cycles
    && s.pushTimes == s.successes
    && s.successes <= s.pullTimes <= s.cycles
  }

  lemma InitInv(cfg: Config)
    ensures Inv(cfg, Init())
  {
  }

  lemma BeginSleeps(cfg: Config, s: MonitorState)
    requires Inv(cfg, s) && s.phase == Running
    ensures SleepsOk(cfg, Begin(s).sleeps)
  {
    var b := Begin(s);
    if !s.firstLoop {
      forall i | 0 <= i < |b.sleeps|
        ensures b.sleeps[i] == BackoffSeconds || b.sleeps[i] == cfg.intervalSeconds
      {
        if i < |s.sleeps| {
          assert b.sleeps[i] == s.sleeps[i];
        }
      }
    }
  }

  /** A cycle keeps the invariant. */
  lemma CycleInv(cfg: Config, s: MonitorState, o: ProbeAnswers)
    requires Inv(cfg, s) && s.phase == Running
    ensures Inv(cfg, Cycle(cfg, s, o))
  {
    BeginSleeps(cfg, s);
  }

  lemma {:induction false} RunAllInv(cfg: Config, s: MonitorState, os: seq<ProbeAnswers>)
    requires Inv(cfg, s)
    ensures Inv(cfg, RunAll(cfg, s, os))
    decreases |os|
  {
    if os != [] {
      RunAllInv(cfg, s, os[..|os| - 1]);
      var before := RunAll(cfg, s, os[..|os| - 1]);
      if before.phase == Running {
        CycleInv(cfg, before, os[|os| - 1]);
      }
    }
  }

  /** One more answer runs one more cycle, unless the loop has stopped. */
  lemma RunAllStep(cfg: Config, s: MonitorState, os: seq<ProbeAnswers>, i: nat)
    requires i < |os|
    ensures var before := RunAll(cfg, s, os[..i]);
      RunAll(cfg, s, os[..i + 1]) == if before.phase == Running then Cycle(cfg, before, os[i]) else before
  {
    assert os[..i + 1][..i] == os[..i];
  }

  /** Once the loop has stopped, further answers change nothing. */
  lemma {:induction false} RunAllStopped(cfg: Config, s: MonitorState, os: seq<ProbeAnswers>, more: seq<ProbeAnswers>)
    requires RunAll(cfg, s, os).phase != Running
    ensures RunAll(cfg, s, os + more) == RunAll(cfg, s, os)
    decreases |more|
  {
    if more == [] {
      assert os + more == os;
    } else {
      var all := os + more;
      var shorter := more[..|more| - 1];
      assert all[..|all| - 1] == os + shorter;
      RunAllStopped(cfg, s, os, shorter);
    }
  }

  /**
   * The probe loop's variables. `healthy` and `status` are the flags the
   * endpoints read; the counters stand for the four metric series.
   */
  class MonitorLoop {
    const cfg: Config
    var healthy: bool
    var status: bool
    var duration: nat
    var firstLoop: bool
    var phase: Phase
    var cycles: nat
    var successes: nat
    var failures: nat
    var pullTimes: nat
    var pushTimes: nat
    var sleeps: seq<nat>

    function State(): MonitorState
      reads this
    {
      MonitorState(healthy, status, duration, firstLoop, phase, cycles,
                   successes, failures, pullTimes, pushTimes, sleeps)
    }

    ghost predicate Valid()
      reads this
    {
      Inv(cfg, State())
    }

    /** Launching the loop: `healthy` set, the first cycle pending, 120 seconds as the duration. */
    constructor (cfg: Config)
      ensures this.cfg == cfg && State() == Init() && Valid()
    {
      this.cfg := cfg;
      healthy, status, duration, firstLoop, phase := true, false, InitialDurationSeconds, true, Running;
      cycles, successes, failures, pullTimes, pushTimes := 0, 0, 0, 0, 0;
      sleeps := [];
    }

    /** reportSuccess: `status` true and one more success event. */
    method ReportSuccess()
      modifies this
      ensures State() == old(State()).(status := true, successes := old(successes) + 1)
    {
      status := true;
      successes := successes + 1;
    }

    /** reportFailure: `status` false and one more failure event. */
    method ReportFailure()
      modifies this
      ensures State() == old(State()).(status := false, failures := old(failures) + 1)
    {
      status := false;
      failures := failures + 1;
    }

    /** reportPullTime: one more pull-duration observation. */
    method ReportPullTime()
      modifies this
      ensures State() == old(State()).(pullTimes := old(pullTimes) + 1)
    {
      pullTimes := pullTimes + 1;
    }

    /** reportPushTime: one more push-duration observation. */
    method ReportPushTime()
      modifies this
      ensures State() == old(State()).(pushTimes := old(pushTimes) + 1)
    {
      pushTimes := pushTimes + 1;
    }

    /** Leaving the loop after a base, delete or tag step that did not succeed. */
    method Stop(outcome: StepEnd)
      requires !Succeeded(outcome)
      modifies this
      ensures outcome.Returned? ==> State() == old(State()).(healthy := false, phase := Halted)
      ensures outcome.ProcessExit? ==> State() == old(State()).(phase := Exited(outcome.code))
      ensures outcome == Panic ==> State() == old(State()).(phase := Crashed)
    {
      match outcome {
        case Returned(_) =>
          healthy := false;
          phase := Halted;
        case ProcessExit(code) =>
          phase := Exited(code);
        case Panic =>
          phase := Crashed;
      }
    }

    /** One iteration of the loop. */
    method RunCycle(o: ProbeAnswers)
      requires Valid() && phase == Running
      modifies this
      ensures State() == Cycle(cfg, old(State()), o)
      ensures Valid()
    {
      CycleInv(cfg, State(), o);
      BeginCycle();
      var pull := PullTestImage(cfg, o.pullTest);
      if !Succeeded(pull.outcome) {
        duration := BackoffSeconds;
        ReportFailure();
        return;
      }
      ReportPullTime();
      AfterTestPull(o);
    }

    /** The top of the loop body: sleep unless this is the first cycle, then set `status`. */
    method BeginCycle()
      modifies this
      ensures State() == Begin(old(State()))
    {
      if !firstLoop {
        sleeps := sleeps + [duration];
      }
      firstLoop := false;
      status := true;
      cycles := cycles + 1;
    }

    /** The steps after a successful test pull, with the loop's reaction to their outcome. */
    method AfterTestPull(o: ProbeAnswers)
      modifies this
      ensures State() == Settle(cfg, old(State()), AfterPullRun(cfg, old(healthy), o).outcome)
    {
      if cfg.baseImage != "" {
        var base := PullBaseImage(cfg, o.pullBase);
        if !Succeeded(base.outcome) {
          Stop(base.outcome);
          return;
        }
      }

      var del := DeleteTopLayer(cfg.baseLayer, o.history, o.remove, healthy);
      if !Succeeded(del.outcome) {
        Stop(del.outcome);
        return;
      }

      TagAndPush(o);
    }

    /** The tag and push steps, with the loop's reaction to their outcome. */
    method TagAndPush(o: ProbeAnswers)
      modifies this
      ensures State() == Settle(cfg, old(State()), TagAndPushRun(cfg, o).outcome)
    {
      var tag := CreateTagLayerRun(cfg, o.create, o.commit, o.start, o.kill, o.unixTime);
      if !Succeeded(tag.outcome) {
        Stop(tag.outcome);
        return;
      }

      var push := PushTestImage(cfg, o.push);
      if !Succeeded(push.outcome) {
        duration := BackoffSeconds;
        ReportFailure();
        return;
      }
      ReportPushTime();
      duration := cfg.intervalSeconds;
      ReportSuccess();
    }

    /** Runs cycles with the given answers until they run out or the loop stops. */
    method Run(os: seq<ProbeAnswers>)
      requires Valid()
      modifies this
      ensures State() == RunAll(cfg, old(State()), os)
      ensures Valid()
    {
      ghost var start := State();
      var i := 0;
      while i < |os| && phase == Running
        invariant 0 <= i <= |os|
        invariant Valid()
        invariant State() == RunAll(cfg, start, os[..i])
      {
        RunAllStep(cfg, start, os, i);
        RunCycle(os[i]);
        i := i + 1;
      }
      if i < |os| {
        RunAllStopped(cfg, start, os[..i], os[i..]);
        assert os[..i] + os[i..] == os;
      } else {
        assert os[..i] == os;
      }
    }
  }
}
