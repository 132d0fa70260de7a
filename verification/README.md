# registry-monitor, modelled in Dafny

registry-monitor checks a container registry end to end, over and over:
- it pulls a test image;
- it pulls the base image when one is named;
- it removes the image tagged `latest` from the base layer's history;
- it builds a new top layer by creating, committing, starting and killing a container;
- it pushes the test image back.

A background loop runs these probe cycles. It sleeps 30 seconds after a
transient failure (a failed pull or push) and the configured interval after a
success. On a structural failure (base pull, delete or tag step) it marks the
monitor unhealthy and stops. Two HTTP endpoints report the loop's flags:
- `/health` answers 503 once the monitor is unhealthy;
- `/status` answers 400 after a cycle that failed transiently; after a structural failure it stays at 200.

The model is organised as follows:
- `image_ref.dfy` (module `ImageRef`): how image references are built.
- `engine.dfy` (module `Engine`): the engine calls, and the engine's answers, which are parameters.
- `flags.dfy` (module `Flags`): the start-up checks in `main`.
- `steps.dfy` (module `Steps`): the probe steps. Each one returns its ending and the engine calls it made.
- `probe.dfy` (module `Probe`): one cycle's steps in order, stopping at the first step that does not succeed.
- `monitor.dfy` (module `Monitor`): the probe loop. It has two parts:
  - a specification on values: `Init`, `Cycle` and `RunAll`, plus the invariant `Inv`;
  - the class `MonitorLoop`, whose fields are the loop's variables, updated in place. Its methods are proved against that specification.
- `handlers.dfy` (module `Handlers`): the two HTTP handlers.
- `cycle_props.dfy` (module `CycleProps`): properties of one cycle and of many.

## Model

| member | source | states |
|---|---|---|
| ImageRef.ImagePath | monitor.go:289-292 | the reference is the repository followed by `:latest` |
| ImageRef.ImagePathInjective | monitor.go:289-292 | different repositories give different references |
| ImageRef.FullImageRef | monitor.go:294-304 | `registry/repository/base:latest` when a base image is named, `registry/repository:latest` otherwise |
| ImageRef.FullImageRefDeterminesBase | monitor.go:294-304 | for a fixed registry and repository, the reference determines the base image |
| Flags.MissingFlag | monitor.go:437-452 | no message exactly when all four required values are present; otherwise the message names the first missing one in `main`'s order |
| Flags.Startup | monitor.go:437-466 | the loop starts exactly when all four required values are present, at most one base selector is given and, when neither is given, the history answer is non-empty; the configuration is then unchanged except that, with no selector, the base layer becomes the first history entry's ID; an empty history panics; a failed history request is fatal with "Failed to grab image ID" and two selectors with "Both base-image and base-layer-id flag; only one of required" |
| Flags.StartedBaseSelector | monitor.go:454-466 | a started configuration lacks both selectors only when the first history ID was empty |
| Steps.PullCredentials | monitor.go:270-278 | anonymous exactly for a public base, else the registry login |
| Steps.PullTestImage | monitor.go:268-287 | one pull of `repository:latest` with the pull credentials; true exactly when the pull succeeds |
| Steps.PullBaseImage | monitor.go:306-324 | one pull of `registry/repository/base:latest` with the pull credentials; true exactly when the pull succeeds |
| Steps.PushTestImage | monitor.go:389-402 | one push of `registry/repository:latest` onto itself with the registry login; true exactly when the push succeeds |
| Steps.StringInSlice | monitor.go:162-169 | true exactly when the value occurs in the list |
| Steps.FirstTagged | monitor.go:333-345 | the index of the first history entry carrying the tag, and none only when no entry carries it |
| Steps.DeleteTopLayerRun | monitor.go:326-349 | the step succeeds exactly when the history is read, the monitor is healthy and, if some entry is tagged `latest`, its removal succeeds; it reads the history and removes only the first entry tagged `latest`; it ends false on an engine error and answers `healthy` otherwise |
| Steps.DeleteTopLayer | monitor.go:326-349 | the scanning loop with early exit computes exactly `DeleteTopLayerRun` |
| Steps.DeleteTopLayerAsWritten | monitor.go:326-349 | as written: it panics exactly when some entry is tagged `latest`, and removes nothing |
| Steps.TopLayerRemovedWhenTagged | monitor.go:333-343 | on a history of one `latest` entry the corrected step removes that entry's image, while the as-written step panics |
| Steps.CreateTagLayerRun | monitor.go:351-387 | the calls are create (from the full base reference), commit, start and kill (with SIGKILL), cut off after the first failure; a failed create or start exits with status 1, a failed commit or kill returns false, otherwise true |
| Probe.TagAndPushRun | monitor.go:598-622 | after the delete step, the cycle ends in success, a push failure, a tag failure or exit status 1 |
| Probe.AfterPullRun | monitor.go:583-622 | after the test pull, a cycle never ends in a test-pull failure |
| Probe.RunProbe | monitor.go:563-623 | transient failures come only from the test pull and the push; structural ones only from base, delete and tag; process ends only from the tag step, with status 1; a test-pull failure happens exactly when the test pull fails, a base-pull failure exactly when a base is named and its pull fails |
| Probe.FailureEndings | monitor.go:326-387 | the cycle halts at the delete step exactly when the earlier pulls succeed and the history read or the removal fails (or the monitor is unhealthy); it halts at the tag step exactly when every earlier step succeeds and the commit, or the kill after a start, fails; it exits with status 1 exactly when every earlier step succeeds and the create, or the start after a commit, fails |
| Probe.PushReachedExactly | monitor.go:574-622 | the push is reached exactly when every earlier engine answer is a success (and the monitor is healthy); the cycle succeeds exactly when every answer is a success |
| Monitor.Init | monitor.go:545-548 | the launch state: healthy, `status` at its zero value false, first loop pending, 120 seconds, running, no cycles, sleeps or metric events |
| Monitor.Begin | monitor.go:563-571 | the top of an iteration: one sleep of the current duration unless it is the first loop, then `firstLoop` cleared, `status` set and one more cycle; nothing else changes |
| Monitor.Settle | monitor.go:575-622 | after a cycle's ending: `healthy` is cleared exactly by a structural failure; the loop keeps running exactly after a success or a transient failure; `status` is set by a success and cleared by a transient failure; exactly those two endings count one metric event, and only a success counts a push time; sleeps and cycle counts are untouched |
| Monitor.Cycle | monitor.go:563-623 | one iteration: one more cycle; `healthy` never turns true; `status` ends false exactly on a transient failure; a pull time is counted exactly when the test pull succeeds |
| Monitor.RunAll | monitor.go:563-626 | the loop over many answers: the durations slept only grow by appending, and the cycle count never decreases |
| Monitor.InitInv | monitor.go:545-548 | the launch state satisfies the loop invariant |
| Monitor.BeginSleeps | monitor.go:563-571 | the sleep before a later cycle lasts the backoff or the interval |
| Monitor.CycleInv | monitor.go:563-623 | one cycle preserves the loop invariant: `healthy` is false exactly when halted, one sleep before every cycle but the first, each cycle counted once, push times equal successes |
| Monitor.RunAllInv | monitor.go:563-626 | any number of cycles preserves the invariant |
| Monitor.RunAllStopped | monitor.go:587-608 | once the loop has returned, further answers change nothing |
| Monitor.MonitorLoop.constructor | monitor.go:545-548 | the loop starts healthy, on its first cycle, with a 120-second duration and `status` false |
| Monitor.MonitorLoop.ReportSuccess | monitor.go:515-523 | sets `status` and counts one success; nothing else changes |
| Monitor.MonitorLoop.ReportFailure | monitor.go:525-533 | clears `status` and counts one failure; nothing else changes |
| Monitor.MonitorLoop.ReportPushTime | monitor.go:535-538 | counts one push time; nothing else changes |
| Monitor.MonitorLoop.ReportPullTime | monitor.go:540-543 | counts one pull time; nothing else changes |
| Monitor.MonitorLoop.Stop | monitor.go:587-608 | a step returning false clears `healthy` and halts the loop; an exit or a panic ends the process |
| Monitor.MonitorLoop.BeginCycle | monitor.go:563-571 | sleeps unless first, clears `firstLoop`, sets `status` |
| Monitor.MonitorLoop.TagAndPush | monitor.go:598-622 | updates the state exactly as the specification settles the tag-and-push outcome |
| Monitor.MonitorLoop.AfterTestPull | monitor.go:583-622 | updates the state exactly as the specification settles the outcome after the test pull |
| Monitor.MonitorLoop.RunCycle | monitor.go:563-623 | one iteration of the loop body updates the fields exactly as `Cycle` and keeps the invariant |
| Monitor.MonitorLoop.Run | monitor.go:545-630 | the loop runs cycles until it stops or the answers run out; it ends in the state `RunAll` gives and keeps the invariant |
| Handlers.HealthHandler | monitor.go:105-111 | status 200 exactly when healthy, 503 otherwise; the body reads back as the flag |
| Handlers.StatusHandler | monitor.go:113-119 | status 200 exactly when `status` is set, 400 otherwise; the body reads back as the flag |
| CycleProps.CredentialPolicy | monitor.go:268-402 | every pull of a cycle uses the pull credentials; every push uses the registry login and pushes an image onto itself |
| CycleProps.TestPullFailureIsAlone | monitor.go:575-580 | a failed test pull is the cycle's only engine call |
| CycleProps.CreateReachedExactly | monitor.go:583-604 | a container is created exactly when the test pull, base pull and delete step all succeed |
| CycleProps.PushIsLastInTagAndPush | monitor.go:598-613 | the tag-and-push stage pushes exactly when every tag sub-step succeeds, and the push is last |
| CycleProps.PushIsLastAfterPull | monitor.go:583-613 | after the test pull, the push happens exactly when every earlier step succeeds, and it is last |
| CycleProps.PushIsLast | monitor.go:574-613 | a cycle pushes exactly when every earlier step succeeds; the push is then its last engine call |
| CycleProps.TestPullFailureBacksOff | monitor.go:575-580 | a failed test pull sets the 30-second duration, clears `status` and counts a failure without a pull time; health and phase are unchanged |
| CycleProps.PushFailureBacksOff | monitor.go:609-615 | a failed push sets the 30-second duration, clears `status` and counts a failure after one pull time |
| CycleProps.SuccessRestoresInterval | monitor.go:617-623 | a successful cycle sets the configured interval and `status`, and counts a pull time, a push time and a success |
| CycleProps.StatusReflectsCycle | monitor.go:571-623 | after a cycle `status` is false exactly when the cycle failed transiently, and the status endpoint then answers 400 |
| CycleProps.StoppedStaysPut | monitor.go:587-608 | a stopped loop stays stopped, whatever answers follow |
| CycleProps.StructuralFailureHalts | monitor.go:587-608 | a structural failure clears `healthy` and halts the loop for good; `status` stays true, the duration is unchanged and no failure is counted |
| CycleProps.DeleteOrTagFailureHalts | monitor.go:326-387 | a failed history read or removal at the delete step, or a failed commit or kill at the tag step, clears `healthy` and halts the loop for good |
| CycleProps.TagFailureExits | monitor.go:357-375 | a failed container create, or a failed start after a commit, ends the process with status 1 and leaves `healthy` as it was |
| CycleProps.FirstCycleDoesNotSleep | monitor.go:563-570 | the first cycle begins without sleeping |
| CycleProps.SleepAfterCycle | monitor.go:564-622 | a later cycle sleeps the configured interval after a success and 30 seconds after a failure |
| CycleProps.HealthNeverRecovers | monitor.go:545-630 | once unhealthy, the monitor stays unhealthy |
| CycleProps.NeverCrashes | monitor.go:326-387 | with the corrected delete step no cycle panics: a loop that has not crashed never reaches the crashed phase |
| CycleProps.CyclesBounded | monitor.go:563-626 | each set of engine answers runs at most one cycle |
| CycleProps.Reachable | monitor.go:545-630 | in every state reachable from launch: health answers 503 exactly when halted; every sleep is 30 seconds or the interval, one before each cycle but the first; each cycle is counted once; push times equal successes and do not exceed pull times |

## Left out

- Engine operations (pull, history, remove, create, commit, start, kill, push) are parameters. The model records which calls a step makes and with what arguments; the engine's behaviour is not modelled.
- The engine connection (`newPodmanClient`, `buildTLSTransport`) is not modelled. A failed reconnection at the top of a cycle is ignored by the code and leaves a nil engine context; its effect on the steps (an error answer or a crash) is left to the engine abstraction, and the model's step answers stand for whatever the engine then does.
- The image and container clean-up helpers `clearAllContainers` and `clearAllImages` are not modelled, because no path in the loop calls them.
- The loop runs as a goroutine beside the HTTP server. Concurrency between the loop and the handlers is not modelled: the handlers are functions of the flag they read.
- Metrics are kept as counts of reported events. The float values observed (pull and push durations in seconds) are not kept. The CloudWatch sink, and the condition that enables it, are not modelled.
- Logging and printing are not modelled.
- Flag and environment parsing, log-level parsing and metric registration are not modelled. Their failures exit before the loop starts.
- Durations are whole seconds. Parsing the test interval, and the fatal error for an unparsable one, are not modelled.
- A negative test interval is not modelled: the interval is a natural number, while the interval parser accepts negative durations, which the sleep treats as no sleep.
- The wall clock is an integer parameter. It stands in for the time-stamped container name.
- The loop's write of the global `base` is not modelled, because nothing reads it.
- `Flags.Startup` returns the new configuration instead of overwriting the base-layer flag in place.
- `Flags.Startup` does not model the history request made at start-up through an engine context that is not yet connected; the answer to that request is a parameter.
- `Monitor.MonitorLoop.Run` does not model the loop running forever: it runs one cycle per element of a finite sequence of answers.
- `Steps.CreateTagLayerRun` exits with status 1 when the start call fails, as well as when the create call fails; this follows the code.
- The probe loop uses the corrected delete step (see Findings).

## Findings

| source | as written | input that shows it | evidently intended | confidence | as-written member | corrected member |
|---|---|---|---|---|---|---|
| monitor.go:337-338 | the ID is stored at index 0 of a nil slice, which panics | a base-layer history `[HistoryEntry("top", ["latest"])]` | store the found ID as the one element of the removal list and remove it | high (not executed) | Steps.DeleteTopLayerAsWritten | Steps.DeleteTopLayerRun |
