/**
 * The container-engine collaborator, seen from the monitor: the outcome of
 * each call is supplied from outside (an oracle), and the calls themselves
 * are recorded so that what a step asked of the engine can be stated.
 */
module Engine {

  /** Whether an engine call returned an error. */
  datatype EngineResult = Ok | Failed

  /** One entry of an image's history: its ID and the tags it carries. */
  datatype HistoryEntry = HistoryEntry(id: string, tags: seq<string>)

  /** What `images.History` answered. */
  datatype HistoryResult = HistoryOk(entries: seq<HistoryEntry>) | HistoryFailed

  /** What `containers.CreateWithSpec` answered: the new container's ID, or an error. */
  datatype CreateResult = Created(id: string) | CreateFailed

  /** Pull and push options: no credentials, or the registry username and password. */
  datatype Credentials = Anonymous | Basic(username: string, password: string)

  /**
   * A request made of the engine. A created container is named
   * "updatedcontainer" followed by the Unix time `unixTime`.
   */
  datatype EngineCall =
    | PullCall(ref: string, creds: Credentials)
    | HistoryCall(ref: string)
    | RemoveCall(ids: seq<string>)
    | CreateCall(image: string, unixTime: int)
    | CommitCall(container: string)
    | StartCall(container: string)
    | KillCall(container: string, signal: string)
    | PushCall(source: string, destination: string, creds: Credentials)
}
