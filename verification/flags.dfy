/**
 * The monitor's configuration and the checks `main` makes on it before the
 * probe loop starts: four required values, then the choice of base.
 */
module Flags {
  import opened Wrappers
  import opened Engine

  /** The command-line settings the probe loop reads; the interval in whole seconds. */
  datatype Config = Config(
    username: string,
    password: string,
    registryHost: string,
    repository: string,
    baseImage: string,
    baseLayer: string,
    publicBase: bool,
    intervalSeconds: nat)

  predicate RequiredPresent(c: Config)
  {
    c.username != "" && c.password != "" && c.registryHost != "" && c.repository != ""
  }

  /** The fatal message for the first required setting that is empty, in the order `main` checks them. */
  function MissingFlag(c: Config): (r: Option<string>)
    ensures r == None <==> RequiredPresent(c)
    ensures c.username == "" ==> r == Some("Missing username flag")
    ensures c.username != "" && c.password == "" ==> r == Some("Missing password flag")
    ensures c.username != "" && c.password != "" && c.registryHost == "" ==> r == Some("Missing registry-host flag")
    ensures c.username != "" && c.password != "" && c.registryHost != "" && c.repository == ""
      ==> r == Some("Missing repository flag")
  {
    if c.username == "" then Some("Missing username flag")
    else if c.password == "" then Some("Missing password flag")
    else if c.registryHost == "" then Some("Missing registry-host flag")
    else if c.repository == "" then Some("Missing repository flag")
    else None
  }

  /** How start-up ends: the loop starts with a configuration, the process exits with a message, or it panics. */
  datatype StartupOutcome = Started(config: Config) | Fatal(message: string) | Panicked

  /**
   * Start-up as `main` does it. `history` is the engine's answer to the
   * history request for the repository, made only when neither base
   * selector is given; its first entry's ID becomes the base layer, and an
   * empty answer is indexed anyway (a runtime panic).
   */
  function Startup(flags: Config, history: HistoryResult): (r: StartupOutcome)
    ensures r.Started? <==>
              && RequiredPresent(flags)
              && !(flags.baseImage != "" && flags.baseLayer != "")
              && (flags.baseImage == "" && flags.baseLayer == "" ==> history.HistoryOk? && history.entries != [])
    ensures r.Started? ==> RequiredPresent(r.config) && !(r.config.baseImage != "" && r.config.baseLayer != "")
    ensures r.Started? ==> r.config == flags.(baseLayer := r.config.baseLayer)
    ensures r.Started? && flags.baseImage == "" && flags.baseLayer == ""
      ==> r.config.baseLayer == history.entries[0].id
    ensures r.Started? && (flags.baseImage != "" || flags.baseLayer != "") ==> r.config == flags
    ensures r == Panicked <==>
              RequiredPresent(flags) && flags.baseImage == "" && flags.baseLayer == "" && history == HistoryOk([])
    ensures !RequiredPresent(flags) ==> r == Fatal(MissingFlag(flags).value)
    ensures RequiredPresent(flags) && flags.baseImage == "" && flags.baseLayer == "" && history == HistoryFailed
      ==> r == Fatal("Failed to grab image ID")
    ensures RequiredPresent(flags) && flags.baseImage != "" && flags.baseLayer != ""
      ==> r == Fatal("Both base-image and base-layer-id flag; only one of required")
  {
    match MissingFlag(flags)
    case Some(message) => Fatal(message)
    case None =>
      if flags.baseImage == "" && flags.baseLayer == "" then
        match history
        case HistoryFailed => Fatal("Failed to grab image ID")
        case HistoryOk(entries) =>
          if entries == [] then Panicked
          else Started(flags.(baseLayer := entries[0].id))
      else if flags.baseImage != "" && flags.baseLayer != "" then
        Fatal("Both base-image and base-layer-id flag; only one of required")
      else
        Started(flags)
  }

  /** A started monitor never has both base selectors; it has neither only when the first history entry's ID is empty. */
  lemma StartedBaseSelector(flags: Config, history: HistoryResult)
    requires Startup(flags, history).Started?
    ensures var c := Startup(flags, history).config;
      (c.baseImage == "" && c.baseLayer == "") ==> history.HistoryOk? && history.entries[0].id == ""
  {
  }
}
