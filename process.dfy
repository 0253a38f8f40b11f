/**
 * What one run of a command leaves behind, and `die` (masv_portal/config.py): the
 * lines written to standard output and standard error, the requests put on the wire,
 * and the exit status.
 */
module Process {
  import opened Config
  import opened Client

  datatype Exit = Exit(code: int, stdout: seq<string>, stderr: seq<string>, requests: seq<HttpRequest>)

  /** `die(cause)` after a run that has printed `stdout`, logged `stderr` and sent `requests`. */
  function Die(stdout: seq<string>, stderr: seq<string>, requests: seq<HttpRequest>, cause: string): (e: Exit)
    ensures e.code == 1 && e.stdout == stdout && e.requests == requests
    ensures e.stderr == stderr + [ToolName + ": " + cause]
  {
    Exit(1, stdout, stderr + [Debug(cause)], requests)
  }

  /** The text a command reports for a request that did not return: `str(e)`, or the cause `die` was given. */
  function Message(outcome: Outcome): string {
    match outcome
    case Raised(m) => m
    case Exited(cause) => cause
    case Returned(_) => ""
  }

  /** The path of a team's portal collection, shared by list and create. */
  function TeamPortals(team: string): string {
    "/v1/teams/" + team + "/portals"
  }
}
