/**
 * Properties of the probe cycle and of the loop over many cycles: what each
 * kind of ending does to the loop's state, which engine calls a cycle makes,
 * and what holds of every state reachable from the launch state.
 */
module CycleProps {
  import opened Engine
  import opened Flags
  import opened Steps
  import opened Probe
  import opened Monitor
  import opened Handlers

  /** Pulls use the configured pull credentials; pushes use the registry login and push an image onto itself. */
  predicate CallsFollowPolicy(cfg: Config, calls: seq<EngineCall>)
  {
    forall c :: c in calls ==>
      && (c.PullCall? ==> c.creds == PullCredentials(cfg))
      && (c.PushCall? ==> c.creds == Basic(cfg.username, cfg.password) && c.source == c.destination)
  }

  predicate HasPush(calls: seq<EngineCall>)
  {
    exists c :: c in calls && c.PushCall?
  }

  predicate HasCreate(calls: seq<EngineCall>)
  {
    exists c :: c in calls && c.CreateCall?
  }

  // ---------------------------------------------------------------------------
  // One cycle's engine calls
  // ---------------------------------------------------------------------------

  lemma PolicyAppend(cfg: Config, a: seq<EngineCall>, b: seq<EngineCall>)
    requires CallsFollowPolicy(cfg, a) && CallsFollowPolicy(cfg, b)
    ensures CallsFollowPolicy(cfg, a + b)
  {
  }

  lemma {:induction false} PolicyInTagAndPush(cfg: Config, o: ProbeAnswers)
    ensures CallsFollowPolicy(cfg, TagAndPushRun(cfg, o).calls)
  {
    var tag := CreateTagLayerRun(cfg, o.create, o.commit, o.start, o.kill, o.unixTime);
    assert CallsFollowPolicy(cfg, tag.calls);
    PolicyAppend(cfg, tag.calls, PushTestImage(cfg, o.push).calls);
  }

  lemma {:induction false} PolicyAfterPull(cfg: Config, healthy: bool, o: ProbeAnswers)
    ensures CallsFollowPolicy(cfg, AfterPullRun(cfg, healthy, o).calls)
  {
    var base := if cfg.baseImage != "" then PullBaseImage(cfg, o.pullBase) else StepRun(Returned(true), []);
    assert CallsFollowPolicy(cfg, base.calls);
    var del := DeleteTopLayerRun(cfg.baseLayer, o.history, o.remove, healthy);
    assert CallsFollowPolicy(cfg, del.calls);
    PolicyAppend(cfg, base.calls, del.calls);
    PolicyInTagAndPush(cfg, o);
    PolicyAppend(cfg, base.calls + del.calls, TagAndPushRun(cfg, o).calls);
  }

  /** Every pull and push of a cycle follows the credential policy. */
  lemma {:induction false} CredentialPolicy(cfg: Config, healthy: bool, o: ProbeAnswers)
    ensures CallsFollowPolicy(cfg, RunProbe(cfg, healthy, o).calls)
  {
    PolicyAfterPull(cfg, healthy, o);
    PolicyAppend(cfg, PullTestImage(cfg, o.pullTest).calls, AfterPullRun(cfg, healthy, o).calls);
  }

  /** A failed test pull ends the cycle after that one call. */
  lemma TestPullFailureIsAlone(cfg: Config, healthy: bool, o: ProbeAnswers)
    requires o.pullTest == Failed
    ensures RunProbe(cfg, healthy, o) ==
      CycleRun(TransientFailure(PullTest), [PullCall(cfg.repository + ":latest", PullCredentials(cfg))])
  {
  }

  /** A call kind occurs in a concatenation exactly when it occurs in one part. */
  lemma CallKindsAppend(a: seq<EngineCall>, b: seq<EngineCall>)
    ensures HasPush(a + b) <==> HasPush(a) || HasPush(b)
    ensures HasCreate(a + b) <==> HasCreate(a) || HasCreate(b)
    ensures b != [] ==> (a + b)[|a + b| - 1] == b[|b| - 1]
  {
    if HasPush(a) {
      var c :| c in a && c.PushCall?;
      assert c in a + b;
    }
    if HasPush(b) {
      var c :| c in b && c.PushCall?;
      assert c in a + b;
    }
    if HasCreate(a) {
      var c :| c in a && c.CreateCall?;
      assert c in a + b;
    }
    if HasCreate(b) {
      var c :| c in b && c.CreateCall?;
      assert c in a + b;
    }
  }

  lemma CreateInTagAndPush(cfg: Config, o: ProbeAnswers)
    ensures HasCreate(TagAndPushRun(cfg, o).calls)
  {
    var tag := CreateTagLayerRun(cfg, o.create, o.commit, o.start, o.kill, o.unixTime);
    assert tag.calls[0] in TagAndPushRun(cfg, o).calls;
  }

  lemma {:induction false} CreateAfterPull(cfg: Config, healthy: bool, o: ProbeAnswers)
    requires o.pullTest == Ok
    ensures HasCreate(AfterPullRun(cfg, healthy, o).calls) <==> ReachesTag(cfg, healthy, o)
  {
    var r := AfterPullRun(cfg, healthy, o);
    var base := if cfg.baseImage != "" then PullBaseImage(cfg, o.pullBase) else StepRun(Returned(true), []);
    var del := DeleteTopLayerRun(cfg.baseLayer, o.history, o.remove, healthy);
    var early := base.calls + del.calls;
    assert !HasCreate(base.calls);
    assert !HasCreate(del.calls);
    CallKindsAppend(base.calls, del.calls);
    var reached := Succeeded(base.outcome) && Succeeded(del.outcome);
    assert reached <==> ReachesTag(cfg, healthy, o);
    if reached {
      var rest := TagAndPushRun(cfg, o);
      CreateInTagAndPush(cfg, o);
      assert r.calls == early + rest.calls;
      CallKindsAppend(early, rest.calls);
    } else {
      assert r.calls == base.calls || r.calls == early;
    }
  }

  /** A container is created exactly when every step before the tag step succeeded. */
  lemma {:induction false} CreateReachedExactly(cfg: Config, healthy: bool, o: ProbeAnswers)
    ensures HasCreate(RunProbe(cfg, healthy, o).calls) <==> ReachesTag(cfg, healthy, o)
  {
    var pull := PullTestImage(cfg, o.pullTest);
    assert !HasCreate(pull.calls);
    if o.pullTest == Ok {
      CreateAfterPull(cfg, healthy, o);
      CallKindsAppend(pull.calls, AfterPullRun(cfg, healthy, o).calls);
    }
  }

  /** The tag step's sub-steps all succeed. */
  predicate TagSucceeds(o: ProbeAnswers)
  {
    o.create.Created? && o.commit == Ok && o.start == Ok && o.kill == Ok
  }

  lemma {:induction false} PushIsLastInTagAndPush(cfg: Config, o: ProbeAnswers)
    ensures var r := TagAndPushRun(cfg, o);
      && (HasPush(r.calls) <==> TagSucceeds(o))
      && (HasPush(r.calls) ==> r.calls[|r.calls| - 1].PushCall?)
  {
    var tag := CreateTagLayerRun(cfg, o.create, o.commit, o.start, o.kill, o.unixTime);
    assert Succeeded(tag.outcome) <==> TagSucceeds(o);
    if TagSucceeds(o) {
      assert PushTestImage(cfg, o.push).calls[0] in TagAndPushRun(cfg, o).calls;
    }
  }

  /** Appending calls that end in their push to push-free calls keeps the push last. */
  lemma PushOnlyInSecond(early: seq<EngineCall>, rest: seq<EngineCall>)
    requires !HasPush(early)
    requires HasPush(rest) ==> rest[|rest| - 1].PushCall?
    ensures HasPush(early + rest) <==> HasPush(rest)
    ensures HasPush(early + rest) ==> (early + rest)[|early + rest| - 1].PushCall?
  {
    CallKindsAppend(early, rest);
  }

  /** A cycle that stops before the tag step makes no push. */
  lemma {:induction false} NoPushBeforeTag(cfg: Config, healthy: bool, o: ProbeAnswers)
    requires o.pullTest == Ok && !ReachesTag(cfg, healthy, o)
    ensures !HasPush(AfterPullRun(cfg, healthy, o).calls)
  {
    var base := if cfg.baseImage != "" then PullBaseImage(cfg, o.pullBase) else StepRun(Returned(true), []);
    var del := DeleteTopLayerRun(cfg.baseLayer, o.history, o.remove, healthy);
    assert !(Succeeded(base.outcome) && Succeeded(del.outcome));
    assert !HasPush(base.calls);
    assert !HasPush(base.calls + del.calls);
  }

  /** A cycle that reaches the tag step makes push-free calls, then the tag-and-push stage's calls. */
  lemma {:induction false} CallsThroughTag(cfg: Config, healthy: bool, o: ProbeAnswers)
    requires o.pullTest == Ok && ReachesTag(cfg, healthy, o)
    ensures exists early :: !HasPush(early) && AfterPullRun(cfg, healthy, o).calls == early + TagAndPushRun(cfg, o).calls
  {
    var base := if cfg.baseImage != "" then PullBaseImage(cfg, o.pullBase) else StepRun(Returned(true), []);
    var del := DeleteTopLayerRun(cfg.baseLayer, o.history, o.remove, healthy);
    assert Succeeded(base.outcome) && Succeeded(del.outcome);
    var early := base.calls + del.calls;
    assert !HasPush(early);
  }

  lemma {:induction false} PushIsLastAfterPull(cfg: Config, healthy: bool, o: ProbeAnswers)
    requires o.pullTest == Ok
    ensures var r := AfterPullRun(cfg, healthy, o);
      && (HasPush(r.calls) <==> ReachesPush(cfg, healthy, o))
      && (HasPush(r.calls) ==> |r.calls| > 0 && r.calls[|r.calls| - 1].PushCall?)
  {
    if ReachesTag(cfg, healthy, o) {
      CallsThroughTag(cfg, healthy, o);
      var early :| !HasPush(early) && AfterPullRun(cfg, healthy, o).calls == early + TagAndPushRun(cfg, o).calls;
      PushIsLastInTagAndPush(cfg, o);
      PushOnlyInSecond(early, TagAndPushRun(cfg, o).calls);
    } else {
      NoPushBeforeTag(cfg, healthy, o);
    }
  }

  /**
   * The push is attempted exactly when every earlier step succeeded, and
   * then it is the cycle's last engine call.
   */
  lemma {:induction false} PushIsLast(cfg: Config, healthy: bool, o: ProbeAnswers)
    ensures var r := RunProbe(cfg, healthy, o);
      && (HasPush(r.calls) <==> ReachesPush(cfg, healthy, o))
      && (HasPush(r.calls) ==> r.calls[|r.calls| - 1].PushCall?)
  {
    var pull := PullTestImage(cfg, o.pullTest);
    assert !HasPush(pull.calls);
    if o.pullTest == Ok {
      PushIsLastAfterPull(cfg, healthy, o);
      PushOnlyInSecond(pull.calls, AfterPullRun(cfg, healthy, o).calls);
    }
  }

  // ---------------------------------------------------------------------------
  // One cycle's effect on the loop's state
  // ---------------------------------------------------------------------------

  /** After a failed test pull the loop backs off, clears `status` and counts a failure, without a pull time. */
  lemma TestPullFailureBacksOff(cfg: Config, s: MonitorState, o: ProbeAnswers)
    requires o.pullTest == Failed
    ensures var t := Cycle(cfg, s, o);
      && t.duration == BackoffSeconds && !t.status && t.phase == s.phase && t.healthy == s.healthy
      && t.failures == s.failures + 1 && t.successes == s.successes
      && t.pullTimes == s.pullTimes && t.pushTimes == s.pushTimes
  {
  }

  /** After a failed push the loop backs off, clears `status` and counts a failure after one pull time. */
  lemma {:induction false} PushFailureBacksOff(cfg: Config, s: MonitorState, o: ProbeAnswers)
    requires ReachesPush(cfg, s.healthy, o) && o.push == Failed
    ensures var t := Cycle(cfg, s, o);
      && t.duration == BackoffSeconds && !t.status && t.phase == s.phase && t.healthy == s.healthy
      && t.failures == s.failures + 1 && t.successes == s.successes
      && t.pullTimes == s.pullTimes + 1 && t.pushTimes == s.pushTimes
  {
    PushReachedExactly(cfg, s.healthy, o);
  }

  /** A successful cycle restores the configured interval, sets `status` and reports a pull time, a push time and a success. */
  lemma {:induction false} SuccessRestoresInterval(cfg: Config, s: MonitorState, o: ProbeAnswers)
    requires AllStepsSucceed(cfg, s.healthy, o)
    ensures var t := Cycle(cfg, s, o);
      && t.duration == cfg.intervalSeconds && t.status && t.phase == s.phase && t.healthy == s.healthy
      && t.successes == s.successes + 1 && t.failures == s.failures
      && t.pullTimes == s.pullTimes + 1 && t.pushTimes == s.pushTimes + 1
  {
    PushReachedExactly(cfg, s.healthy, o);
  }

  /** `status` after a cycle is false exactly when the cycle failed transiently, and the status endpoint answers 400 exactly then. */
  lemma StatusReflectsCycle(cfg: Config, s: MonitorState, o: ProbeAnswers)
    ensures var t := Cycle(cfg, s, o);
      && (!t.status <==> RunProbe(cfg, s.healthy, o).outcome.TransientFailure?)
      && (StatusHandler(t.status).code == 400 <==> RunProbe(cfg, s.healthy, o).outcome.TransientFailure?)
  {
  }

  /** A loop that has stopped stays where it is, whatever answers follow. */
  lemma {:induction false} StoppedStaysPut(cfg: Config, s: MonitorState, os: seq<ProbeAnswers>)
    requires s.phase != Running
    ensures RunAll(cfg, s, os) == s
  {
    if os != [] {
      StoppedStaysPut(cfg, s, os[..|os| - 1]);
    }
  }

  /**
   * A structural failure clears `healthy` and halts the loop for good, with
   * `status` left as the cycle set it, true, and the duration unchanged; no
   * failure is counted.
   */
  lemma StructuralFailureHalts(cfg: Config, s: MonitorState, o: ProbeAnswers, more: seq<ProbeAnswers>)
    requires RunProbe(cfg, s.healthy, o).outcome.StructuralFailure?
    ensures var t := Cycle(cfg, s, o);
      && !t.healthy && t.phase == Halted && t.status && t.duration == s.duration
      && t.failures == s.failures && t.successes == s.successes
      && RunAll(cfg, t, more) == t
  {
    StoppedStaysPut(cfg, Cycle(cfg, s, o), more);
  }

  /**
   * A failed history read or removal at the delete step, or a failed commit
   * or kill at the tag step, clears `healthy` and halts the loop for good.
   */
  lemma {:induction false} DeleteOrTagFailureHalts(cfg: Config, s: MonitorState, o: ProbeAnswers, more: seq<ProbeAnswers>)
    requires (ReachesDelete(cfg, o) && DeleteFails(s.healthy, o)) || (ReachesTag(cfg, s.healthy, o) && TagReturnsFalse(o))
    ensures var t := Cycle(cfg, s, o);
      !t.healthy && t.phase == Halted && RunAll(cfg, t, more) == t
  {
    FailureEndings(cfg, s.healthy, o);
    StoppedStaysPut(cfg, Cycle(cfg, s, o), more);
  }

  /** A failed container creation, or a failed start after a commit, ends the process with status 1; `healthy` is untouched. */
  lemma {:induction false} TagFailureExits(cfg: Config, s: MonitorState, o: ProbeAnswers)
    requires ReachesTag(cfg, s.healthy, o) && TagExits(o)
    ensures Cycle(cfg, s, o).phase == Exited(1)
    ensures Cycle(cfg, s, o).healthy == s.healthy
  {
    FailureEndings(cfg, s.healthy, o);
  }

  /** The first cycle does not sleep. */
  lemma FirstCycleDoesNotSleep(cfg: Config, o: ProbeAnswers)
    ensures Cycle(cfg, Init(), o).sleeps == []
    ensures Cycle(cfg, Init(), o).cycles == 1
  {
  }

  /** Settling a cycle's ending leaves the durations slept alone. */
  lemma SettleKeepsSleeps(cfg: Config, s: MonitorState, outcome: CycleOutcome)
    ensures Settle(cfg, s, outcome).sleeps == s.sleeps
  {
  }

  /** A later cycle sleeps for the configured interval after a success and for the backoff after a failure. */
  lemma {:induction false} SleepAfterCycle(cfg: Config, s: MonitorState, o: ProbeAnswers, next: ProbeAnswers)
    requires Cycle(cfg, s, o).phase == Running
    ensures var t := Cycle(cfg, s, o);
      Cycle(cfg, t, next).sleeps ==
        t.sleeps + [if RunProbe(cfg, s.healthy, o).outcome == Success then cfg.intervalSeconds else BackoffSeconds]
  {
    var t := Cycle(cfg, s, o);
    var outcome := RunProbe(cfg, s.healthy, o).outcome;
    assert !t.firstLoop;
    assert t.duration == if outcome == Success then cfg.intervalSeconds else BackoffSeconds;
    var b := Begin(t);
    assert b.sleeps == t.sleeps + [t.duration];
    var nextOutcome := RunProbe(cfg, t.healthy, next).outcome;
    SettleKeepsSleeps(cfg, if nextOutcome == TransientFailure(PullTest) then b else b.(pullTimes := b.pullTimes + 1), nextOutcome);
  }

  // ---------------------------------------------------------------------------
  // Many cycles
  // ---------------------------------------------------------------------------

  /** Once unhealthy, the monitor never becomes healthy again. */
  lemma {:induction false} HealthNeverRecovers(cfg: Config, s: MonitorState, os: seq<ProbeAnswers>)
    requires !s.healthy
    ensures !RunAll(cfg, s, os).healthy
  {
    if os != [] {
      HealthNeverRecovers(cfg, s, os[..|os| - 1]);
    }
  }

  /**
   * With the corrected delete step no cycle panics: a loop that has not
   * crashed never crashes, and the only process end is exit status 1.
   */
  lemma {:induction false} NeverCrashes(cfg: Config, s: MonitorState, os: seq<ProbeAnswers>)
    requires s.phase != Crashed
    ensures RunAll(cfg, s, os).phase != Crashed
  {
    if os != [] {
      NeverCrashes(cfg, s, os[..|os| - 1]);
    }
  }

  /** Each answer runs at most one cycle. */
  lemma {:induction false} CyclesBounded(cfg: Config, s: MonitorState, os: seq<ProbeAnswers>)
    ensures RunAll(cfg, s, os).cycles <= s.cycles + |os|
  {
    if os != [] {
      CyclesBounded(cfg, s, os[..|os| - 1]);
    }
  }

  /**
   * Every state reached from launch: the health endpoint answers 503 exactly
   * when the loop has halted; every sleep lasted the backoff or the interval,
   * one before each cycle but the first; every cycle begun is counted once as
   * a success, a failure or the stop; push times match successes.
   */
  lemma Reachable(cfg: Config, os: seq<ProbeAnswers>)
    ensures var t := RunAll(cfg, Init(), os);
      && (HealthHandler(t.healthy).code == 503 <==> t.phase == Halted)
      && (t.phase == Running ==> t.healthy)
      && (forall i :: 0 <= i < |t.sleeps| ==> t.sleeps[i] == BackoffSeconds || t.sleeps[i] == cfg.intervalSeconds)
      && (t.cycles > 0 ==> |t.sleeps| == t.cycles - 1)
      && t.cycles <= |os|
      && t.successes + t.failures + (if t.phase == Running then 0 else 1) == t.cycles
      && t.pushTimes == t.successes <= t.pullTimes
  {
    InitInv(cfg);
    RunAllInv(cfg, Init(), os);
    CyclesBounded(cfg, Init(), os);
  }
}
