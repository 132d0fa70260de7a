/**
 * The probe steps of one cycle with the engine's answers as parameters:
 * what each step asks of the engine and how it reports back to the loop.
 */
module Steps {
  import opened Wrappers
  import opened Engine
  import opened Flags
  import opened ImageRef

  /**
   * How a step hands control back: it returns a boolean to the loop, it ends
   * the process with an exit code, or it panics (which also ends the process).
   */
  datatype StepEnd = Returned(ok: bool) | ProcessExit(code: int) | Panic

  /** A step's ending together with the engine calls it made, in order. */
  datatype StepRun = StepRun(outcome: StepEnd, calls: seq<EngineCall>)

  predicate Succeeded(e: StepEnd)
  {
    e == Returned(true)
  }

  /** The tag the delete step looks for in the base layer's history. */
  const TopLayerTag: string := "latest"

  /** The signal the tag step kills its container with. */
  const KillSignal: string := "SIGKILL"

  /** Pull options: anonymous when the base is public, the registry login otherwise. */
  function PullCredentials(cfg: Config): (c: Credentials)
    ensures c == Anonymous <==> cfg.publicBase
    ensures !cfg.publicBase ==> c == Basic(cfg.username, cfg.password)
  {
    if cfg.publicBase then Anonymous else Basic(cfg.username, cfg.password)
  }

  /** Pulls `repository:latest` (no registry host in front). */
  function PullTestImage(cfg: Config, pull: EngineResult): (r: StepRun)
    ensures r.calls == [PullCall(cfg.repository + ":latest", PullCredentials(cfg))]
    ensures r.outcome == Returned(pull == Ok)
  {
    StepRun(Returned(pull == Ok), [PullCall(ImagePath(cfg.repository), PullCredentials(cfg))])
  }

  /** Pulls the fully qualified base image reference. */
  function PullBaseImage(cfg: Config, pull: EngineResult): (r: StepRun)
    ensures cfg.baseImage != "" ==>
      r.calls == [PullCall(cfg.registryHost + "/" + cfg.repository + "/" + cfg.baseImage + ":latest", PullCredentials(cfg))]
    ensures r.outcome == Returned(pull == Ok)
  {
    StepRun(Returned(pull == Ok), [PullCall(FullImageRef(cfg.registryHost, cfg.repository, cfg.baseImage), PullCredentials(cfg))])
  }

  /** Pushes `registry/repository:latest` onto itself, always with the registry login. */
  function PushTestImage(cfg: Config, push: EngineResult): (r: StepRun)
    ensures |r.calls| == 1 && r.calls[0].PushCall?
    ensures r.calls[0].source == r.calls[0].destination == cfg.registryHost + "/" + cfg.repository + ":latest"
    ensures r.calls[0].creds == Basic(cfg.username, cfg.password)
    ensures r.outcome == Returned(push == Ok)
  {
    var source := FullImageRef(cfg.registryHost, cfg.repository, "");
    StepRun(Returned(push == Ok), [PushCall(source, source, Basic(cfg.username, cfg.password))])
  }

  /** Whether `value` occurs in `list`, scanning from the front and stopping at the first match. */
  method StringInSlice(value: string, list: seq<string>) returns (found: bool)
    ensures found <==> value in list
  {
    for i := 0 to |list|
      invariant value !in list[..i]
    {
      if list[i] == value {
        return true;
      }
    }
    return false;
  }

  /** The index of the first history entry at or after `from` carrying `tag`, if any. */
  function FirstTaggedFrom(entries: seq<HistoryEntry>, tag: string, from: nat): (r: Option<nat>)
    requires from <= |entries|
    ensures r.Some? ==> from <= r.value < |entries| && tag in entries[r.value].tags
    ensures r.Some? ==> forall j :: from <= j < r.value ==> tag !in entries[j].tags
    ensures r.None? ==> forall j :: from <= j < |entries| ==> tag !in entries[j].tags
    decreases |entries| - from
  {
    if from == |entries| then None
    else if tag in entries[from].tags then Some(from)
    else FirstTaggedFrom(entries, tag, from + 1)
  }

  /** The index of the first history entry carrying `tag`, if any. */
  function FirstTagged(entries: seq<HistoryEntry>, tag: string): (r: Option<nat>)
    ensures r.Some? ==> r.value < |entries| && tag in entries[r.value].tags
    ensures r.None? <==> forall j :: 0 <= j < |entries| ==> tag !in entries[j].tags
    ensures forall k ::
      (0 <= k < |entries| && tag in entries[k].tags && (forall j :: 0 <= j < k ==> tag !in entries[j].tags))
      ==> r == Some(k)
  {
    FirstTaggedFrom(entries, tag, 0)
  }

  /** Whether some history entry carries the "latest" tag. */
  predicate HasTopLayer(entries: seq<HistoryEntry>)
  {
    exists k :: 0 <= k < |entries| && TopLayerTag in entries[k].tags
  }

  /**
   * The delete step with the removal list built as evidently intended (one
   * element holding the found ID): fetch the base layer's history, remove
   * the first image tagged "latest" if there is one, and answer `healthy`
   * unless an engine call failed.
   */
  function DeleteTopLayerRun(baseLayer: string, history: HistoryResult, remove: EngineResult, healthy: bool): (r: StepRun)
    ensures r.outcome == Returned(false) || r.outcome == Returned(healthy)
    ensures Succeeded(r.outcome) <==>
      history.HistoryOk? && healthy && (HasTopLayer(history.entries) ==> remove == Ok)
    ensures 1 <= |r.calls| <= 2 && r.calls[0] == HistoryCall(baseLayer)
    ensures forall c :: c in r.calls ==> c.HistoryCall? || c.RemoveCall?
    ensures history == HistoryFailed ==> r == StepRun(Returned(false), [HistoryCall(baseLayer)])
    ensures history.HistoryOk? && (forall j :: 0 <= j < |history.entries| ==> TopLayerTag !in history.entries[j].tags)
      ==> r == StepRun(Returned(healthy), [HistoryCall(baseLayer)])
    ensures forall k ::
      (history.HistoryOk? && 0 <= k < |history.entries| && TopLayerTag in history.entries[k].tags
       && (forall j :: 0 <= j < k ==> TopLayerTag !in history.entries[j].tags))
      ==> (r.calls == [HistoryCall(baseLayer), RemoveCall([history.entries[k].id])]
           && r.outcome == Returned(remove == Ok && healthy))
  {
    var calls := [HistoryCall(baseLayer)];
    match history
    case HistoryFailed => StepRun(Returned(false), calls)
    case HistoryOk(entries) =>
      match FirstTagged(entries, TopLayerTag)
      case None => StepRun(Returned(healthy), calls)
      case Some(k) =>
        var removing := calls + [RemoveCall([entries[k].id])];
        if remove == Failed then StepRun(Returned(false), removing)
        else
          assert remove == Ok;
          StepRun(Returned(healthy), removing)
  }

  /** The delete step, scanning the history with an early exit; the cycle runs this one. */
  method DeleteTopLayer(baseLayer: string, history: HistoryResult, remove: EngineResult, healthy: bool) returns (r: StepRun)
    ensures r == DeleteTopLayerRun(baseLayer, history, remove, healthy)
  {
    var calls := [HistoryCall(baseLayer)];
    if history.HistoryFailed? {
      return StepRun(Returned(false), calls);
    }
    var entries := history.entries;
    var i := 0;
    while i < |entries|
      invariant 0 <= i <= |entries|
      invariant calls == [HistoryCall(baseLayer)]
      invariant forall j :: 0 <= j < i ==> TopLayerTag !in entries[j].tags
    {
      var tagged := StringInSlice(TopLayerTag, entries[i].tags);
      if tagged {
        var imagesToRemove := [entries[i].id];
        calls := calls + [RemoveCall(imagesToRemove)];
        if remove == Failed {
          return StepRun(Returned(false), calls);
        }
        break;
      }
      i := i + 1;
    }
    return StepRun(Returned(healthy), calls);
  }

  /**
   * The delete step as written: the found ID is stored at index 0 of a list
   * that has no elements, so finding an image tagged "latest" panics before
   * anything is removed.
   */
  method DeleteTopLayerAsWritten(baseLayer: string, history: HistoryResult, healthy: bool) returns (r: StepRun)
    ensures r.calls == [HistoryCall(baseLayer)]
    ensures history == HistoryFailed ==> r.outcome == Returned(false)
    ensures history.HistoryOk? ==>
      (r.outcome == Panic <==> HasTopLayer(history.entries))
    ensures history.HistoryOk? && r.outcome != Panic ==> r.outcome == Returned(healthy)
  {
    var calls := [HistoryCall(baseLayer)];
    if history.HistoryFailed? {
      return StepRun(Returned(false), calls);
    }
    var entries := history.entries;
    var i := 0;
    while i < |entries|
      invariant 0 <= i <= |entries|
      invariant forall j :: 0 <= j < i ==> TopLayerTag !in entries[j].tags
    {
      var tagged := StringInSlice(TopLayerTag, entries[i].tags);
      if tagged {
        var imagesToRemove: seq<string> := [];
        if |imagesToRemove| == 0 {
          // Assigning index 0 of an empty list is an index-out-of-range panic.
          return StepRun(Panic, calls);
        }
      }
      i := i + 1;
    }
    return StepRun(Returned(healthy), calls);
  }

  /**
   * A one-entry history whose image is tagged "latest": the step as written
   * panics on it (its contract: a top layer exists), while the corrected step
   * removes that image and answers `healthy`.
   */
  lemma TopLayerRemovedWhenTagged(baseLayer: string, healthy: bool)
    ensures HasTopLayer([HistoryEntry("top", [TopLayerTag])])
    ensures DeleteTopLayerRun(baseLayer, HistoryOk([HistoryEntry("top", [TopLayerTag])]), Ok, healthy)
      == StepRun(Returned(healthy), [HistoryCall(baseLayer), RemoveCall(["top"])])
  {
    assert TopLayerTag in [HistoryEntry("top", [TopLayerTag])][0].tags;
  }

  /** The index of the first false entry, or the length when every entry is true. */
  function FirstFailure(passed: seq<bool>): (r: nat)
    ensures r <= |passed|
    ensures forall j :: 0 <= j < r ==> passed[j]
    ensures r < |passed| ==> !passed[r]
  {
    if passed == [] || !passed[0] then 0 else 1 + FirstFailure(passed[1..])
  }

  /** Sub-steps of the tag step, in order: create, commit, start, kill. */
  function TagSubSteps(create: CreateResult, commit: EngineResult, start: EngineResult, kill: EngineResult): seq<bool>
  {
    [create.Created?, commit == Ok, start == Ok, kill == Ok]
  }

  /**
   * The tag step: create a container from the base reference, commit it,
   * start it and kill it. The first failing sub-step decides: creation or
   * start ends the process with status 1, commit or kill returns false.
   */
  function CreateTagLayerRun(cfg: Config, create: CreateResult, commit: EngineResult, start: EngineResult,
                             kill: EngineResult, unixTime: int): (r: StepRun)
    ensures var f := FirstFailure(TagSubSteps(create, commit, start, kill));
      && r.outcome == (if f == 4 then Returned(true) else if f == 0 || f == 2 then ProcessExit(1) else Returned(false))
      && |r.calls| == if f == 4 then 4 else f + 1
    ensures r.calls[0] == CreateCall(FullImageRef(cfg.registryHost, cfg.repository, cfg.baseImage), unixTime)
    ensures forall c :: c in r.calls ==> c.CreateCall? || c.CommitCall? || c.StartCall? || c.KillCall?
    ensures create.Created? ==> r.calls[1..] <= [CommitCall(create.id), StartCall(create.id), KillCall(create.id, KillSignal)]
  {
    var calls := [CreateCall(FullImageRef(cfg.registryHost, cfg.repository, cfg.baseImage), unixTime)];
    match create
    case CreateFailed => StepRun(ProcessExit(1), calls)
    case Created(id) =>
      var calls := calls + [CommitCall(id)];
      if commit == Failed then StepRun(Returned(false), calls)
      else
        var calls := calls + [StartCall(id)];
        if start == Failed then
          assert !TagSubSteps(create, commit, start, kill)[2];
          StepRun(ProcessExit(1), calls)
        else
          var calls := calls + [KillCall(id, KillSignal)];
          if kill == Failed then
            assert !TagSubSteps(create, commit, start, kill)[3];
            StepRun(Returned(false), calls) else StepRun(Returned(true), calls)
  }
}
