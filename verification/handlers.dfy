/**
 * The two HTTP endpoints. Each reads one flag and answers with its textual
 * form; when the flag is false it writes an error status first, otherwise
 * the server's default status applies.
 */
module Handlers {
  import opened Wrappers

  /** A response: the status code sent and the body written. */
  datatype Response = Response(code: int, body: string)

  /** The status sent when a handler writes its body without writing a header first. */
  const DefaultCode: int := 200

  /** The `%t` verb: a boolean as the word "true" or "false". */
  function FormatBool(b: bool): string
  {
    if b then "true" else "false"
  }

  /** Reads back a body written with `%t`. */
  function ParseBool(s: string): Option<bool>
  {
    if s == "true" then Some(true) else if s == "false" then Some(false) else None
  }

  /** A handler's reply: the header it wrote, if any, and its body. */
  function Reply(header: Option<int>, body: string): Response
  {
    Response(if header.Some? then header.value else DefaultCode, body)
  }

  /** `/health`: 503 and "false" once the monitor is unhealthy, 200 and "true" otherwise. */
  function HealthHandler(healthy: bool): (r: Response)
    ensures r.code == DefaultCode <==> healthy
    ensures !healthy ==> r.code == 503
    ensures ParseBool(r.body) == Some(healthy)
  {
    Reply(if !healthy then Some(503) else None, FormatBool(healthy))
  }

  /** `/status`: 400 and "false" after a failed cycle, 200 and "true" otherwise. */
  function StatusHandler(status: bool): (r: Response)
    ensures r.code == DefaultCode <==> status
    ensures !status ==> r.code == 400
    ensures ParseBool(r.body) == Some(status)
  {
    Reply(if !status then Some(400) else None, FormatBool(status))
  }
}
