/**
 * The `ls` command (masv_portal/cli/commands/list.py): fetch the team's portals and
 * print one fixed-format line per portal, either all of them in server order or, per
 * filter token, the first portal whose `id` or `subdomain` is that token.
 */
module ListCommand {
  import opened Wrappers
  import opened Json
  import opened Config
  import opened Client
  import opened Process

  /** The parsed command line: `--team`, the positional filter tokens, and the global `--verbose`. */
  datatype ListArgs = ListArgs(team: Option<string>, filters: seq<string>, verbose: bool)

  /** The printing part of a run: the lines printed, and the cause it died with, if it did. */
  datatype Printed = Printed(lines: seq<string>, failure: Option<string>)

  /** Where the search for a filter token ends: a portal's index, no match, or a raised error. */
  datatype Search = Found(index: nat) | Missing | Broken(message: string)

  // ---- A well-formed portal, as the server describes one ----

  /** `key` holds a string among `members`. */
  predicate HasText(members: seq<(string, Json)>, key: string) {
    Lookup(members, key).Some? && Lookup(members, key).value.JString?
  }

  /** A portal object with string `id`, `created_at` and `subdomain`, and a `tag`, if any, that is an object with an optional string `name`. */
  predicate IsPortal(p: Json) {
    && p.JObject?
    && HasText(p.members, "id")
    && HasText(p.members, "created_at")
    && HasText(p.members, "subdomain")
    && match Lookup(p.members, "tag")
       case None => true
       case Some(tag) => tag.JObject? && (Lookup(tag.members, "name").None? || HasText(tag.members, "name"))
  }

  /** The string under `key` of a portal object ("" where there is none). */
  function Text(p: Json, key: string): string {
    if p.JObject? && HasText(p.members, key) then Lookup(p.members, key).value.s else ""
  }

  /** The name of a portal's tag, "" when it has no tag or the tag has no name. */
  function TagName(p: Json): string {
    if p.JObject? && Lookup(p.members, "tag").Some? && Lookup(p.members, "tag").value.JObject?
    then Text(Lookup(p.members, "tag").value, "name")
    else ""
  }

  /** The line printed for a well-formed portal: id, creation time, quoted tag name and subdomain, one space apart. */
  function Format(p: Json): string {
    Text(p, "id") + " " + Text(p, "created_at") + " \"" + TagName(p) + "\" " + Text(p, "subdomain")
  }

  /** The portal's `id` or `subdomain` is the token. */
  predicate Named(p: Json, token: string) {
    Text(p, "id") == token || Text(p, "subdomain") == token
  }

  // ---- The source's operations ----

  /** `get_tag`: `portal.get('tag', {}).get('name', '')`. */
  function GetTag(portal: Json): (r: Result<Json>)
    ensures portal.JObject? && Lookup(portal.members, "tag").None? ==> r == Success(JString(""))
    ensures (portal.JObject? && Lookup(portal.members, "tag").Some? && Lookup(portal.members, "tag").value.JObject?) ==>
      r == Success(Lookup(Lookup(portal.members, "tag").value.members, "name").GetOr(JString("")))
    ensures r.Failure? <==>
      !portal.JObject? || (Lookup(portal.members, "tag").Some? && !Lookup(portal.members, "tag").value.JObject?)
  {
    match Get(portal, "tag", JObject([]))
    case Failure(e) => Failure(e)
    case Success(tag) => Get(tag, "name", JString(""))
  }

  /**
   * `list_portal`'s line: the f-string reads `id`, `created_at`, the tag and `subdomain`
   * in that order, and the first that cannot be read raises.
   */
  function Line(portal: Json, lib: Library): (r: Result<string>)
    ensures r.Success? <==>
      && portal.JObject?
      && Lookup(portal.members, "id").Some?
      && Lookup(portal.members, "created_at").Some?
      && Lookup(portal.members, "subdomain").Some?
      && GetTag(portal).Success?
    ensures portal.JObject? && Lookup(portal.members, "id").None? ==> r == Failure("'id'")
  {
    match Subscript(portal, "id")
    case Failure(e) => Failure(e)
    case Success(id) =>
      match Subscript(portal, "created_at")
      case Failure(e) => Failure(e)
      case Success(createdAt) =>
        match GetTag(portal)
        case Failure(e) => Failure(e)
        case Success(tag) =>
          match Subscript(portal, "subdomain")
          case Failure(e) => Failure(e)
          case Success(subdomain) =>
            Success(Str(lib, id) + " " + Str(lib, createdAt) + " \"" + Str(lib, tag) + "\" " + Str(lib, subdomain))
  }

  /** The generator's test `p['id'] == token or p['subdomain'] == token`, which reads `subdomain` only when `id` differs. */
  function Matches(p: Json, token: string): (r: Result<bool>)
    ensures r == Success(true) <==>
      || Subscript(p, "id") == Success(JString(token))
      || (Subscript(p, "id").Success? && Subscript(p, "subdomain") == Success(JString(token)))
    ensures r.Failure? <==>
      || Subscript(p, "id").Failure?
      || (Subscript(p, "id") != Success(JString(token)) && Subscript(p, "subdomain").Failure?)
  {
    match Subscript(p, "id")
    case Failure(e) => Failure(e)
    case Success(id) =>
      if id == JString(token) then Success(true)
      else
        match Subscript(p, "subdomain")
        case Failure(e) => Failure(e)
        case Success(subdomain) => Success(subdomain == JString(token))
  }

  /** `next(p for p in portals if ...)`: the first portal that matches, scanning in server order. */
  function Find(items: seq<Json>, token: string): (r: Search)
    ensures r.Found? ==> r.index < |items| && Matches(items[r.index], token) == Success(true)
    decreases |items|
  {
    if items == [] then Missing
    else
      match Matches(items[0], token)
      case Failure(e) => Broken(e)
      case Success(true) => Found(0)
      case Success(false) =>
        match Find(items[1..], token)
        case Found(i) => Found(i + 1)
        case other => other
  }

  /** Lines for every portal, in server order, up to the first that cannot be printed. */
  function PrintAll(items: seq<Json>, lib: Library): Printed
    decreases |items|
  {
    if items == [] then Printed([], None)
    else
      match Line(items[0], lib)
      case Failure(e) => Printed([], Some(e))
      case Success(line) =>
        var rest := PrintAll(items[1..], lib);
        Printed([line] + rest.lines, rest.failure)
  }

  /** For each token in turn, the line of its first match; the first token that fails ends the run. */
  function Select(items: seq<Json>, tokens: seq<string>, lib: Library): Printed
    decreases |tokens|
  {
    if tokens == [] then Printed([], None)
    else
      match Find(items, tokens[0])
      case Broken(e) => Printed([], Some(e))
      case Missing => Printed([], Some("No such portal " + tokens[0]))
      case Found(i) =>
        match Line(items[i], lib)
        case Failure(e) => Printed([], Some(e))
        case Success(line) =>
          var rest := Select(items, tokens[1..], lib);
          Printed([line] + rest.lines, rest.failure)
  }

  /** The exit of a run that fetched the portals and printed `printed`. */
  function Finish(printed: Printed, call: Call): Exit {
    match printed.failure
    case None => Exit(0, printed.lines, call.stderr, call.requests)
    case Some(cause) => Die(printed.lines, call.stderr, call.requests, cause)
  }

  /** What `ls` prints from the portals it received: all of them, or those the tokens select. */
  function Printing(args: ListArgs, items: seq<Json>, lib: Library): Printed {
    if args.filters == [] then PrintAll(items, lib) else Select(items, args.filters, lib)
  }

  /** The one request `ls` sends once the team and the API key are resolved: a GET of the team's portals. */
  function PortalsRequest(team: string, key: string): HttpRequest {
    HttpRequest("GET", Url(TeamPortals(team)), map[ApiKeyHeader := key], None)
  }

  /** A whole run of `ls`, as a function of its arguments and its surroundings. */
  function Run(args: ListArgs, ctx: Context): Exit {
    match Team(args.team, ctx.env)
    case None => Die([], [], [], MissingTeam)
    case Some(team) =>
      var call := Request(ctx, 0, TeamPortals(team), "GET", map[], None, args.verbose);
      match call.outcome
      case Exited(cause) => Die([], call.stderr, call.requests, cause)
      case Raised(e) => Die([], call.stderr, call.requests, e)
      case Returned(portals) =>
        match Iterate(portals)
        case Failure(e) => Die([], call.stderr, call.requests, e)
        case Success(items) =>
          Finish(Printing(args, items, ctx.lib), call)
  }

  /** The loop `for portal in portals: list_portal(portal)`, stopping at the first portal that raises. */
  method PrintEvery(items: seq<Json>, lib: Library) returns (printed: Printed)
    ensures printed == PrintAll(items, lib)
  {
    var out: seq<string> := [];
    var i := 0;
    while i < |items|
      invariant 0 <= i <= |items|
      invariant PrintAll(items, lib) == Printed(out + PrintAll(items[i..], lib).lines, PrintAll(items[i..], lib).failure)
    {
      assert items[i..][1..] == items[i + 1..];
      var line := Line(items[i], lib);
      if line.Failure? {
        return Printed(out, Some(line.error));
      }
      out := out + [line.value];
      i := i + 1;
    }
    return Printed(out, None);
  }

  /** The loop over the filter tokens: print each token's first match, dying at the first token that fails. */
  method PrintSelected(items: seq<Json>, tokens: seq<string>, lib: Library) returns (printed: Printed)
    ensures printed == Select(items, tokens, lib)
  {
    var out: seq<string> := [];
    var i := 0;
    while i < |tokens|
      invariant 0 <= i <= |tokens|
      invariant Select(items, tokens, lib) == Printed(out + Select(items, tokens[i..], lib).lines, Select(items, tokens[i..], lib).failure)
    {
      assert tokens[i..][1..] == tokens[i + 1..];
      var token := tokens[i];
      var search := Find(items, token);
      match search {
        case Broken(e) =>
          return Printed(out, Some(e));
        case Missing =>
          return Printed(out, Some("No such portal " + token));
        case Found(k) =>
          var line := Line(items[k], lib);
          if line.Failure? {
            return Printed(out, Some(line.error));
          }
          out := out + [line.value];
      }
      i := i + 1;
    }
    return Printed(out, None);
  }

  /** `ListCommand.execute`: resolve the team, fetch the portals, then print as the filters say. */
  method Execute(args: ListArgs, ctx: Context) returns (exit: Exit)
    ensures exit == Run(args, ctx)
  {
    var team := Team(args.team, ctx.env);
    if team.None? {
      return Die([], [], [], MissingTeam);
    }
    var call := Request(ctx, 0, TeamPortals(team.value), "GET", map[], None, args.verbose);
    if !call.outcome.Returned? {
      return Die([], call.stderr, call.requests, Message(call.outcome));
    }
    var portals := Iterate(call.outcome.value);
    if portals.Failure? {
      return Die([], call.stderr, call.requests, portals.error);
    }
    var printed;
    if args.filters == [] {
      printed := PrintEvery(portals.value, ctx.lib);
    } else {
      printed := PrintSelected(portals.value, args.filters, ctx.lib);
    }
    return Finish(printed, call);
  }

  // ---- What the source promises, as lemmas ----

  /**
   * The search scans in server order: a found portal is the first that matches, a miss
   * means no portal matches, and an error is raised by the first portal that does not
   * answer the test, every portal before it having answered "no".
   */
  lemma {:induction false} FindIsFirst(items: seq<Json>, token: string)
    ensures Find(items, token).Found? ==>
      forall j :: 0 <= j < Find(items, token).index ==> Matches(items[j], token) == Success(false)
    ensures Find(items, token).Missing? <==> forall j :: 0 <= j < |items| ==> Matches(items[j], token) == Success(false)
    ensures Find(items, token).Broken? ==>
      exists k :: 0 <= k < |items| && Matches(items[k], token) == Failure(Find(items, token).message) &&
        forall j :: 0 <= j < k ==> Matches(items[j], token) == Success(false)
    decreases |items|
  {
    if items != [] && Matches(items[0], token) == Success(false) {
      FindIsFirst(items[1..], token);
      forall j | 1 <= j < |items| ensures items[1..][j - 1] == items[j] { }
      if Find(items, token).Broken? {
        var k :| 0 <= k < |items[1..]| && Matches(items[1..][k], token) == Failure(Find(items, token).message) &&
          forall j :: 0 <= j < k ==> Matches(items[1..][j], token) == Success(false);
        assert Matches(items[k + 1], token) == Failure(Find(items, token).message);
      }
    }
  }

  /** `get_tag` of a well-formed portal is its tag's name, or "" without a tag or a name. */
  lemma GetTagOfPortal(p: Json)
    requires IsPortal(p)
    ensures GetTag(p) == Success(JString(TagName(p)))
  {
  }

  /** A well-formed portal prints as `id created_at "tag" subdomain`. */
  lemma LineOfPortal(p: Json, lib: Library)
    requires IsPortal(p)
    ensures Line(p, lib) == Success(Format(p))
  {
    GetTagOfPortal(p);
  }

  /** Among well-formed portals, the search never raises and finds the first portal named by the token. */
  lemma FindIsFirstNamed(items: seq<Json>, token: string)
    requires forall i :: 0 <= i < |items| ==> IsPortal(items[i])
    ensures !Find(items, token).Broken?
    ensures Find(items, token).Missing? <==> forall i :: 0 <= i < |items| ==> !Named(items[i], token)
    ensures Find(items, token).Found? ==>
      && Named(items[Find(items, token).index], token)
      && forall j :: 0 <= j < Find(items, token).index ==> !Named(items[j], token)
  {
    FindIsFirst(items, token);
    forall i | 0 <= i < |items|
      ensures Matches(items[i], token) == Success(Named(items[i], token))
    {
    }
  }

  /** With no filters, every well-formed portal prints exactly once, in server order. */
  lemma {:induction false} PrintAllInServerOrder(items: seq<Json>, lib: Library)
    requires forall i :: 0 <= i < |items| ==> IsPortal(items[i])
    ensures PrintAll(items, lib).failure == None
    ensures |PrintAll(items, lib).lines| == |items|
    ensures forall i :: 0 <= i < |items| ==> PrintAll(items, lib).lines[i] == Format(items[i])
  {
    if items != [] {
      LineOfPortal(items[0], lib);
      PrintAllInServerOrder(items[1..], lib);
    }
  }

  /** When every token names a well-formed portal, one line per token is printed, that of its first match. */
  lemma {:induction false} SelectAllMatched(items: seq<Json>, tokens: seq<string>, lib: Library)
    requires forall i :: 0 <= i < |items| ==> IsPortal(items[i])
    requires forall t :: 0 <= t < |tokens| ==> Find(items, tokens[t]).Found?
    ensures Select(items, tokens, lib).failure == None
    ensures |Select(items, tokens, lib).lines| == |tokens|
    ensures forall t :: 0 <= t < |tokens| ==>
      Select(items, tokens, lib).lines[t] == Format(items[Find(items, tokens[t]).index])
  {
    if tokens != [] {
      var first := Find(items, tokens[0]).index;
      LineOfPortal(items[first], lib);
      var later := tokens[1..];
      forall t | 0 <= t < |later| ensures Find(items, later[t]).Found? {
        assert later[t] == tokens[t + 1];
      }
      SelectAllMatched(items, later, lib);
      var rest := Select(items, later, lib);
      assert Select(items, tokens, lib) == Printed([Format(items[first])] + rest.lines, None);
      forall t | 1 <= t < |tokens|
        ensures Select(items, tokens, lib).lines[t] == Format(items[Find(items, tokens[t]).index])
      {
        assert later[t - 1] == tokens[t];
      }
    }
  }

  /**
   * At the first token that names no portal the run dies with "No such portal <token>",
   * keeping the lines already printed for the tokens before it.
   */
  lemma {:induction false} SelectStopsAtUnmatched(items: seq<Json>, tokens: seq<string>, k: nat, lib: Library)
    requires forall i :: 0 <= i < |items| ==> IsPortal(items[i])
    requires k < |tokens|
    requires forall t :: 0 <= t < k ==> Find(items, tokens[t]).Found?
    requires Find(items, tokens[k]).Missing?
    ensures Select(items, tokens, lib) ==
            Printed(Select(items, tokens[..k], lib).lines, Some("No such portal " + tokens[k]))
  {
    if k > 0 {
      LineOfPortal(items[Find(items, tokens[0]).index], lib);
      assert tokens[1..][..k - 1] == tokens[..k][1..];
      SelectStopsAtUnmatched(items, tokens[1..], k - 1, lib);
    }
  }

  /** Once a run has died, the tokens after the failing one are never looked up. */
  lemma {:induction false} SelectIgnoresLaterTokens(items: seq<Json>, tokens: seq<string>, later: seq<string>, lib: Library)
    requires Select(items, tokens, lib).failure.Some?
    ensures Select(items, tokens + later, lib) == Select(items, tokens, lib)
  {
    assert tokens != [];
    assert (tokens + later)[0] == tokens[0];
    assert (tokens + later)[1..] == tokens[1..] + later;
    if Find(items, tokens[0]).Found? && Line(items[Find(items, tokens[0]).index], lib).Success? {
      SelectIgnoresLaterTokens(items, tokens[1..], later, lib);
    }
  }

  /** `ls` sends at most one request: a GET of the team's portals carrying only the API key. */
  lemma RunRequest(args: ListArgs, ctx: Context)
    ensures Team(args.team, ctx.env).None? || ApiKey(ctx.env).None? ==> Run(args, ctx).requests == []
    ensures Team(args.team, ctx.env).Some? && ApiKey(ctx.env).Some? ==>
      Run(args, ctx).requests ==
        [HttpRequest("GET", BaseUrl + "/v1/teams/" + Team(args.team, ctx.env).value + "/portals",
                     map[ApiKeyHeader := ApiKey(ctx.env).value], None)]
  {
    match Team(args.team, ctx.env)
    case None =>
    case Some(team) =>
      assert Url(TeamPortals(team)) == BaseUrl + "/v1/teams/" + team + "/portals";
      match ApiKey(ctx.env)
      case None =>
      case Some(key) =>
        assert WithApiKey(map[], key) == map[ApiKeyHeader := key];
  }

  /** `verbose` changes only standard error: the exit status, the lines printed and the requests are the same. */
  lemma RunVerboseOnlyDiagnostics(args: ListArgs, ctx: Context)
    ensures Run(args.(verbose := true), ctx).code == Run(args.(verbose := false), ctx).code
    ensures Run(args.(verbose := true), ctx).stdout == Run(args.(verbose := false), ctx).stdout
    ensures Run(args.(verbose := true), ctx).requests == Run(args.(verbose := false), ctx).requests
  {
    match Team(args.team, ctx.env)
    case None =>
    case Some(team) =>
      VerboseOnlyWritesDiagnostics(ctx, 0, TeamPortals(team), "GET", map[], None);
  }

  /** Without a team or an API key, `ls` sends nothing and dies with the missing setting, team first. */
  lemma RunWithoutCredentials(args: ListArgs, ctx: Context)
    requires Team(args.team, ctx.env).None? || ApiKey(ctx.env).None?
    ensures Run(args, ctx).code == 1 && Run(args, ctx).stdout == [] && Run(args, ctx).requests == []
    ensures Run(args, ctx).stderr ==
      [Debug(if Team(args.team, ctx.env).None? then MissingTeam else MissingApiKey)]
  {
  }

  /**
   * Once the server has answered with a list of portals, the run's exit is the printing's:
   * status 0 exactly when nothing failed, the printed lines on standard output, and
   * `masv_portal: <cause>` as the last line of standard error when something did.
   */
  lemma RunPrints(args: ListArgs, ctx: Context, status: int, text: string, items: seq<Json>)
    requires Team(args.team, ctx.env).Some? && ApiKey(ctx.env).Some?
    requires ctx.send(0, PortalsRequest(Team(args.team, ctx.env).value, ApiKey(ctx.env).value)) == Received(Response(status, text))
    requires IsSuccess(status) && text != "" && ctx.lib.loads(text) == Success(JArray(items))
    ensures Run(args, ctx).code == 0 <==> Printing(args, items, ctx.lib).failure.None?
    ensures Run(args, ctx).stdout == Printing(args, items, ctx.lib).lines
    ensures Printing(args, items, ctx.lib).failure.Some? ==>
      Run(args, ctx).code == 1 &&
      Run(args, ctx).stderr[|Run(args, ctx).stderr| - 1] == Debug(Printing(args, items, ctx.lib).failure.value)
  {
    var team := Team(args.team, ctx.env).value;
    var call := Request(ctx, 0, TeamPortals(team), "GET", map[], None, args.verbose);
    assert WithApiKey(map[], ApiKey(ctx.env).value) == map[ApiKeyHeader := ApiKey(ctx.env).value];
    assert CheckResponse(Response(status, text), args.verbose, ctx.lib).result == Success(JArray(items));
    assert call.outcome == Returned(JArray(items));
  }

  /** With no tokens and well-formed portals, `ls` prints every portal in server order and exits 0. */
  lemma RunListsEveryPortal(args: ListArgs, ctx: Context, status: int, text: string, items: seq<Json>)
    requires Team(args.team, ctx.env).Some? && ApiKey(ctx.env).Some?
    requires ctx.send(0, PortalsRequest(Team(args.team, ctx.env).value, ApiKey(ctx.env).value)) == Received(Response(status, text))
    requires IsSuccess(status) && text != "" && ctx.lib.loads(text) == Success(JArray(items))
    requires args.filters == []
    requires forall i :: 0 <= i < |items| ==> IsPortal(items[i])
    ensures Run(args, ctx).code == 0
    ensures |Run(args, ctx).stdout| == |items|
    ensures forall i :: 0 <= i < |items| ==> Run(args, ctx).stdout[i] == Format(items[i])
  {
    RunPrints(args, ctx, status, text, items);
    PrintAllInServerOrder(items, ctx.lib);
  }

  /** When every token matches a well-formed portal, `ls` prints one line per token, in token order, and exits 0. */
  lemma RunListsEveryMatch(args: ListArgs, ctx: Context, status: int, text: string, items: seq<Json>)
    requires Team(args.team, ctx.env).Some? && ApiKey(ctx.env).Some?
    requires ctx.send(0, PortalsRequest(Team(args.team, ctx.env).value, ApiKey(ctx.env).value)) == Received(Response(status, text))
    requires IsSuccess(status) && text != "" && ctx.lib.loads(text) == Success(JArray(items))
    requires args.filters != []
    requires forall i :: 0 <= i < |items| ==> IsPortal(items[i])
    requires forall t :: 0 <= t < |args.filters| ==> Find(items, args.filters[t]).Found?
    ensures Run(args, ctx).code == 0
    ensures |Run(args, ctx).stdout| == |args.filters|
    ensures forall t :: 0 <= t < |args.filters| ==>
      Run(args, ctx).stdout[t] == Format(items[Find(items, args.filters[t]).index])
  {
    RunPrints(args, ctx, status, text, items);
    SelectAllMatched(items, args.filters, ctx.lib);
  }

  /**
   * At the first token no portal matches, `ls` dies with status 1 and "No such portal <token>",
   * having printed the lines of the tokens before it.
   */
  lemma RunStopsAtUnmatched(args: ListArgs, ctx: Context, status: int, text: string, items: seq<Json>, k: nat)
    requires Team(args.team, ctx.env).Some? && ApiKey(ctx.env).Some?
    requires ctx.send(0, PortalsRequest(Team(args.team, ctx.env).value, ApiKey(ctx.env).value)) == Received(Response(status, text))
    requires IsSuccess(status) && text != "" && ctx.lib.loads(text) == Success(JArray(items))
    requires forall i :: 0 <= i < |items| ==> IsPortal(items[i])
    requires k < |args.filters|
    requires forall t :: 0 <= t < k ==> Find(items, args.filters[t]).Found?
    requires Find(items, args.filters[k]).Missing?
    ensures Run(args, ctx).code == 1
    ensures Run(args, ctx).stdout == Select(items, args.filters[..k], ctx.lib).lines
    ensures Run(args, ctx).stderr[|Run(args, ctx).stderr| - 1] == Debug("No such portal " + args.filters[k])
  {
    RunPrints(args, ctx, status, text, items);
    SelectStopsAtUnmatched(items, args.filters, k, ctx.lib);
  }
}
