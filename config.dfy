/**
 * Credentials and diagnostics (masv_portal/config.py). The process environment is an
 * explicit input: `MASV_API_KEY` and `MASV_TEAM` are optional strings, and an unset
 * variable and an empty one mean the same, as Python's `if not value` does.
 */
module Config {
  import opened Wrappers

  const ToolName: string := "masv_portal"
  const MissingApiKey: string := "MASV_API_KEY environment variable not set"
  const MissingTeam: string := "MASV_TEAM environment variable not set"

  /** The two environment variables the client reads. */
  datatype Env = Env(apiKey: Option<string>, team: Option<string>)

  /** The line `debug` (and so `die`) writes to standard error. */
  function Debug(msg: string): string {
    ToolName + ": " + msg
  }

  /** A setting as Python's truthiness sees it: an empty string counts as unset. */
  function Setting(v: Option<string>): (r: Option<string>)
    ensures r.Some? <==> v.Some? && v.value != ""
    ensures r.Some? ==> r.value == v.value
  {
    if v.Some? && v.value != "" then v else None
  }

  /** `get_api_key()`: the key, or None where the source dies with `MissingApiKey`. */
  function ApiKey(env: Env): (r: Option<string>)
    ensures r.Some? ==> r.value != "" && env.apiKey == Some(r.value)
    ensures r.None? <==> env.apiKey.None? || env.apiKey.value == ""
  {
    Setting(env.apiKey)
  }

  /**
   * `args.team or get_team()`: the `--team` value when it is non-empty, otherwise the
   * environment's team; None where the source dies with `MissingTeam`.
   */
  function Team(flag: Option<string>, env: Env): (r: Option<string>)
    ensures r.Some? ==> r.value != ""
    ensures flag.Some? && flag.value != "" ==> r == flag
    ensures (flag.None? || flag.value == "") ==> r == Setting(env.team)
    ensures r.None? <==> (flag.None? || flag.value == "") && (env.team.None? || env.team.value == "")
  {
    match Setting(flag)
    case Some(t) => Some(t)
    case None => Setting(env.team)
  }
}
