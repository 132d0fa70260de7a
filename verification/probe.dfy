/**
 * The steps of one probe cycle in the loop's order (test pull, base pull
 * when a base image is named, delete, tag, push) and how the cycle ends.
 * The first step that does not succeed ends the cycle; no later step runs.
 */
module Probe {
  import opened Engine
  import opened Flags
  import opened Steps

  datatype ProbeStep = PullTest | PullBase | DeleteLayer | TagLayer | PushTest

  /**
   * How a cycle ends. A transient failure leads to a short sleep and another
   * cycle; a structural failure marks the monitor unhealthy and stops the
   * loop; `ProcessEnded` means a step ended the whole process (`how` is a
   * process exit or a panic).
   */
  datatype CycleOutcome =
    | Success
    | TransientFailure(step: ProbeStep)
    | StructuralFailure(step: ProbeStep)
    | ProcessEnded(step: ProbeStep, how: StepEnd)

  /** A cycle's ending together with every engine call it made, in order. */
  datatype CycleRun = CycleRun(outcome: CycleOutcome, calls: seq<EngineCall>)

  /** The ending of a cycle whose base, delete or tag step did not succeed. */
  function Halt(step: ProbeStep, e: StepEnd): CycleOutcome
  {
    if e.Returned? then StructuralFailure(step) else ProcessEnded(step, e)
  }

  /**
   * Every engine answer the cycle consults before the tag step is a success.
   * The removal answer matters only when the history holds an image tagged
   * "latest", and the delete step also answers the current `healthy` flag.
   */
  predicate ReachesTag(cfg: Config, healthy: bool, o: ProbeAnswers)
  {
    && o.pullTest == Ok
    && (cfg.baseImage != "" ==> o.pullBase == Ok)
    && o.history.HistoryOk?
    && (HasTopLayer(o.history.entries) ==> o.remove == Ok)
    && healthy
  }

  /** Every engine answer the cycle consults before the push is a success. */
  predicate ReachesPush(cfg: Config, healthy: bool, o: ProbeAnswers)
  {
    ReachesTag(cfg, healthy, o) && o.create.Created? && o.commit == Ok && o.start == Ok && o.kill == Ok
  }

  /** Every engine answer the cycle consults is a success. */
  predicate AllStepsSucceed(cfg: Config, healthy: bool, o: ProbeAnswers)
  {
    ReachesPush(cfg, healthy, o) && o.push == Ok
  }

  /** The engine's answers for one cycle, one per call the cycle may make. */
  datatype ProbeAnswers = ProbeAnswers(
    pullTest: EngineResult,
    pullBase: EngineResult,
    history: HistoryResult,
    remove: EngineResult,
    create: CreateResult,
    commit: EngineResult,
    start: EngineResult,
    kill: EngineResult,
    push: EngineResult,
    unixTime: int)

  /** The last two steps of a cycle: create the new top layer, then push the test image. */
  function TagAndPushRun(cfg: Config, o: ProbeAnswers): (r: CycleRun)
    ensures r.outcome in {Success, TransientFailure(PushTest), StructuralFailure(TagLayer), ProcessEnded(TagLayer, ProcessExit(1))}
  {
    var tag := CreateTagLayerRun(cfg, o.create, o.commit, o.start, o.kill, o.unixTime);
    if !Succeeded(tag.outcome) then CycleRun(Halt(TagLayer, tag.outcome), tag.calls)
    else
      var push := PushTestImage(cfg, o.push);
      var calls := tag.calls + push.calls;
      if !Succeeded(push.outcome) then CycleRun(TransientFailure(PushTest), calls)
      else CycleRun(Success, calls)
  }

  /** The steps after a successful test pull: base pull when a base image is named, delete, then tag and push. */
  function AfterPullRun(cfg: Config, healthy: bool, o: ProbeAnswers): (r: CycleRun)
    ensures r.outcome != TransientFailure(PullTest)
  {
    var base := if cfg.baseImage != "" then PullBaseImage(cfg, o.pullBase) else StepRun(Returned(true), []);
    if !Succeeded(base.outcome) then CycleRun(Halt(PullBase, base.outcome), base.calls)
    else
      var del := DeleteTopLayerRun(cfg.baseLayer, o.history, o.remove, healthy);
      var calls := base.calls + del.calls;
      if !Succeeded(del.outcome) then CycleRun(Halt(DeleteLayer, del.outcome), calls)
      else
        var rest := TagAndPushRun(cfg, o);
        CycleRun(rest.outcome, calls + rest.calls)
  }

  /** The probe steps of one cycle, given the engine's answers and the current `healthy` flag. */
  function RunProbe(cfg: Config, healthy: bool, o: ProbeAnswers): (r: CycleRun)
    ensures r.outcome.TransientFailure? ==> r.outcome.step == PullTest || r.outcome.step == PushTest
    ensures r.outcome.StructuralFailure? ==> r.outcome.step in {PullBase, DeleteLayer, TagLayer}
    ensures r.outcome.ProcessEnded? ==> r.outcome.step == TagLayer && r.outcome.how == ProcessExit(1)
    ensures r.outcome == TransientFailure(PullTest) <==> o.pullTest == Failed
    ensures r.outcome == StructuralFailure(PullBase) <==> o.pullTest == Ok && cfg.baseImage != "" && o.pullBase == Failed
  {
    var pull := PullTestImage(cfg, o.pullTest);
    if !Succeeded(pull.outcome) then CycleRun(TransientFailure(PullTest), pull.calls)
    else
      var rest := AfterPullRun(cfg, healthy, o);
      CycleRun(rest.outcome, pull.calls + rest.calls)
  }

  lemma TagAndPushOutcome(cfg: Config, o: ProbeAnswers)
    ensures var outcome := TagAndPushRun(cfg, o).outcome;
      && ((outcome == Success || outcome == TransientFailure(PushTest)) <==>
          o.create.Created? && o.commit == Ok && o.start == Ok && o.kill == Ok)
      && (outcome == Success <==> o.create.Created? && o.commit == Ok && o.start == Ok && o.kill == Ok && o.push == Ok)
  {
    var tag := CreateTagLayerRun(cfg, o.create, o.commit, o.start, o.kill, o.unixTime);
    assert Succeeded(tag.outcome) <==> o.create.Created? && o.commit == Ok && o.start == Ok && o.kill == Ok;
  }

  lemma {:induction false} AfterPullOutcome(cfg: Config, healthy: bool, o: ProbeAnswers)
    requires o.pullTest == Ok
    ensures var outcome := AfterPullRun(cfg, healthy, o).outcome;
      && ((outcome == Success || outcome == TransientFailure(PushTest)) <==> ReachesPush(cfg, healthy, o))
      && (outcome == Success <==> AllStepsSucceed(cfg, healthy, o))
  {
    var base := if cfg.baseImage != "" then PullBaseImage(cfg, o.pullBase) else StepRun(Returned(true), []);
    var del := DeleteTopLayerRun(cfg.baseLayer, o.history, o.remove, healthy);
    assert Succeeded(base.outcome) && Succeeded(del.outcome) <==> ReachesTag(cfg, healthy, o);
    TagAndPushOutcome(cfg, o);
  }

  /** The push step runs exactly when every earlier step succeeded; the cycle succeeds exactly when the push does too. */
  lemma {:induction false} PushReachedExactly(cfg: Config, healthy: bool, o: ProbeAnswers)
    ensures var outcome := RunProbe(cfg, healthy, o).outcome;
      (outcome == Success || outcome == TransientFailure(PushTest)) <==> ReachesPush(cfg, healthy, o)
    ensures RunProbe(cfg, healthy, o).outcome == Success <==> AllStepsSucceed(cfg, healthy, o)
  {
    if o.pullTest == Ok {
      AfterPullOutcome(cfg, healthy, o);
    }
  }

  /** The engine answers before the delete step succeed. */
  predicate ReachesDelete(cfg: Config, o: ProbeAnswers)
  {
    o.pullTest == Ok && (cfg.baseImage != "" ==> o.pullBase == Ok)
  }

  /** The delete step returns false: the history read or the removal fails, or the monitor is already unhealthy. */
  predicate DeleteFails(healthy: bool, o: ProbeAnswers)
  {
    !(o.history.HistoryOk? && (HasTopLayer(o.history.entries) ==> o.remove == Ok) && healthy)
  }

  /** The tag step returns false: a container was created, and its commit, or its kill after a start, fails. */
  predicate TagReturnsFalse(o: ProbeAnswers)
  {
    o.create.Created? && (o.commit == Failed || (o.start == Ok && o.kill == Failed))
  }

  /** The tag step exits the process: the create fails, or the start after a commit fails. */
  predicate TagExits(o: ProbeAnswers)
  {
    o.create == CreateFailed || (o.create.Created? && o.commit == Ok && o.start == Failed)
  }

  lemma TagAndPushEndings(cfg: Config, o: ProbeAnswers)
    ensures var outcome := TagAndPushRun(cfg, o).outcome;
      && (outcome == StructuralFailure(TagLayer) <==> TagReturnsFalse(o))
      && (outcome == ProcessEnded(TagLayer, ProcessExit(1)) <==> TagExits(o))
  {
    var tag := CreateTagLayerRun(cfg, o.create, o.commit, o.start, o.kill, o.unixTime);
    var passed := TagSubSteps(o.create, o.commit, o.start, o.kill);
    if o.create.Created? && o.commit == Ok {
      assert passed[..2] == [true, true];
    }
  }

  lemma {:induction false} AfterPullEndings(cfg: Config, healthy: bool, o: ProbeAnswers)
    requires o.pullTest == Ok
    ensures var outcome := AfterPullRun(cfg, healthy, o).outcome;
      && (outcome == StructuralFailure(DeleteLayer) <==> ReachesDelete(cfg, o) && DeleteFails(healthy, o))
      && (outcome == StructuralFailure(TagLayer) <==> ReachesTag(cfg, healthy, o) && TagReturnsFalse(o))
      && (outcome == ProcessEnded(TagLayer, ProcessExit(1)) <==> ReachesTag(cfg, healthy, o) && TagExits(o))
  {
    var base := if cfg.baseImage != "" then PullBaseImage(cfg, o.pullBase) else StepRun(Returned(true), []);
    var del := DeleteTopLayerRun(cfg.baseLayer, o.history, o.remove, healthy);
    assert Succeeded(base.outcome) <==> ReachesDelete(cfg, o);
    assert Succeeded(del.outcome) <==> !DeleteFails(healthy, o);
    TagAndPushEndings(cfg, o);
  }

  /**
   * Which answers end a cycle in a structural failure of the delete or tag
   * step, and which end the process: a failed history read or removal (or an
   * unhealthy monitor) halts at the delete step; a failed commit, or a failed
   * kill after a start, halts at the tag step; a failed create, or a failed
   * start after a commit, exits with status 1.
   */
  lemma {:induction false} FailureEndings(cfg: Config, healthy: bool, o: ProbeAnswers)
    ensures var outcome := RunProbe(cfg, healthy, o).outcome;
      && (outcome == StructuralFailure(DeleteLayer) <==> ReachesDelete(cfg, o) && DeleteFails(healthy, o))
      && (outcome == StructuralFailure(TagLayer) <==> ReachesTag(cfg, healthy, o) && TagReturnsFalse(o))
      && (outcome == ProcessEnded(TagLayer, ProcessExit(1)) <==> ReachesTag(cfg, healthy, o) && TagExits(o))
  {
    if o.pullTest == Ok {
      AfterPullEndings(cfg, healthy, o);
    }
  }
}
