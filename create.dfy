/**
 * The `new` command (masv_portal/cli/commands/create.py): build the portal payload from
 * the arguments, POST it to the team's portal collection, and print the new portal's
 * public address from the server's answer.
 */
module CreateCommand {
  import opened Wrappers
  import opened Json
  import opened Config
  import opened Client
  import opened Process

  /** The parsed command line; an optional flag that was not given is None. */
  datatype CreateArgs = CreateArgs(
    team: Option<string>,
    subdomain: string,
    name: string,
    message: string,
    recipients: seq<string>,
    accessCode: Option<string>,
    downloadPassword: Option<string>,
    tag: Option<string>,
    verbose: bool)

  const ContentType: string := "Content-Type"
  const JsonMedia: string := "application/json"

  /** A list of Python strings as JSON. */
  function Strings(xs: seq<string>): (r: seq<Json>)
    ensures |r| == |xs| && forall i :: 0 <= i < |xs| ==> r[i] == JString(xs[i])
  {
    seq(|xs|, i requires 0 <= i < |xs| => JString(xs[i]))
  }

  /** An optional flag's value: None when it was not given, the string (even an empty one) when it was. */
  function Optional(v: Option<string>): (r: Option<Json>)
    ensures r.Some? <==> v.Some?
    ensures r.Some? ==> r.value == JString(v.value)
  {
    match v
    case None => None
    case Some(s) => Some(JString(s))
  }

  /** The tag as sent: the object `{"name": tag}` for a non-empty tag, None for a missing or empty one. */
  function TagObject(tag: Option<string>): (r: Option<Json>)
    ensures r.Some? <==> tag.Some? && tag.value != ""
    ensures r.Some? ==> r.value == JObject([("name", JString(tag.value))])
  {
    if tag.Some? && tag.value != "" then Some(JObject([("name", JString(tag.value))])) else None
  }

  /** The dict literal of `execute` before filtering, in its key order, with Python's None as Option's None. */
  function Draft(args: CreateArgs): seq<(string, Option<Json>)> {
    [ ("name", Some(JString(args.name))),
      ("subdomain", Some(JString(args.subdomain))),
      ("message", Some(JString(args.message))),
      ("recipients", Some(JArray(Strings(args.recipients)))),
      ("access_code", Optional(args.accessCode)),
      ("download_password", Optional(args.downloadPassword)),
      ("tag", TagObject(args.tag)) ]
  }

  /** `{k: v for k, v in d.items() if v is not None}`: the entries with a value, in order. */
  function DropNone(entries: seq<(string, Option<Json>)>): (r: seq<(string, Json)>)
    ensures |r| <= |entries|
    decreases |entries|
  {
    if entries == [] then [] else Entry(entries[0].0, entries[0].1) + DropNone(entries[1..])
  }

  /** One entry as a payload: its key and value when it has a value, nothing when it is None. */
  function Entry(key: string, v: Option<Json>): (r: seq<(string, Json)>)
    ensures |r| <= 1
    ensures Lookup(r, key) == v
  {
    if v.Some? then [(key, v.value)] else []
  }

  /** The payload sent: the draft without its None entries. */
  function Payload(args: CreateArgs): seq<(string, Json)> {
    DropNone(Draft(args))
  }

  /** The keys of a payload, in order. */
  function KeysOf(members: seq<(string, Json)>): (r: seq<string>)
    ensures |r| == |members| && forall i :: 0 <= i < |members| ==> r[i] == members[i].0
  {
    seq(|members|, i requires 0 <= i < |members| => members[i].0)
  }

  /** The single POST of `execute`. */
  function Post(args: CreateArgs, ctx: Context, team: string): Call {
    Request(ctx, 0, TeamPortals(team), "POST", map[ContentType := JsonMedia],
            Some(ctx.lib.dumps(JObject(Payload(args)))), args.verbose)
  }

  /** The line printed on success, from the values the server echoed. */
  function Address(lib: Library, id: Json, subdomain: Json): string {
    Str(lib, id) + " https://" + Str(lib, subdomain) + ".portal.massive.io/"
  }

  /**
   * `CreateCommand.execute`: resolve the team, send the payload, and print one line
   * from the server's `id` and `subdomain`; any error raised dies with its text.
   */
  function Execute(args: CreateArgs, ctx: Context): (e: Exit)
    ensures e.code == 0 || e.code == 1
    ensures e.code == 0 ==> |e.stdout| == 1
    ensures e.code == 1 ==> e.stdout == [] && |e.stderr| > 0
    ensures |e.requests| <= 1
  {
    match Team(args.team, ctx.env)
    case None => Die([], [], [], MissingTeam)
    case Some(team) =>
      var call := Post(args, ctx, team);
      match call.outcome
      case Exited(cause) => Die([], call.stderr, call.requests, cause)
      case Raised(e) => Die([], call.stderr, call.requests, e)
      case Returned(data) =>
        match Subscript(data, "id")
        case Failure(e) => Die([], call.stderr, call.requests, e)
        case Success(id) =>
          match Subscript(data, "subdomain")
          case Failure(e) => Die([], call.stderr, call.requests, e)
          case Success(subdomain) => Exit(0, [Address(ctx.lib, id, subdomain)], call.stderr, call.requests)
  }

  // ---- What the source promises, as lemmas ----

  /** Filtering keeps the order of the entries it keeps: it distributes over concatenation. */
  lemma {:induction false} DropNoneAppend(a: seq<(string, Option<Json>)>, b: seq<(string, Option<Json>)>)
    ensures DropNone(a + b) == DropNone(a) + DropNone(b)
    decreases |a|
  {
    if a == [] {
      assert a + b == b;
    } else {
      assert (a + b)[0] == a[0];
      assert (a + b)[1..] == a[1..] + b;
      DropNoneAppend(a[1..], b);
    }
  }

  /** Filtering keeps exactly the entries that have a value: `(k, v)` is kept just when `(k, Some(v))` was there. */
  lemma {:induction false} DropNoneKeeps(entries: seq<(string, Option<Json>)>, key: string, v: Json)
    ensures (key, v) in DropNone(entries) <==> (key, Some(v)) in entries
    decreases |entries|
  {
    if entries != [] {
      DropNoneKeeps(entries[1..], key, v);
      assert entries == [entries[0]] + entries[1..];
    }
  }

  /**
   * The payload is the four required keys with the argument values, followed by
   * `access_code`, `download_password` and `tag` each exactly when it has a value.
   */
  lemma PayloadShape(args: CreateArgs)
    ensures Payload(args) ==
      [ ("name", JString(args.name)),
        ("subdomain", JString(args.subdomain)),
        ("message", JString(args.message)),
        ("recipients", JArray(Strings(args.recipients))) ]
      + Entry("access_code", Optional(args.accessCode))
      + Entry("download_password", Optional(args.downloadPassword))
      + Entry("tag", TagObject(args.tag))
  {
    var d := Draft(args);
    assert DropNone(d[6..]) == Entry(d[6].0, d[6].1) by { assert d[6..][1..] == []; }
    assert DropNone(d[5..]) == Entry(d[5].0, d[5].1) + DropNone(d[6..]) by { assert d[5..][1..] == d[6..]; }
    assert DropNone(d[4..]) == Entry(d[4].0, d[4].1) + DropNone(d[5..]) by { assert d[4..][1..] == d[5..]; }
    assert DropNone(d[3..]) == [(d[3].0, d[3].1.value)] + DropNone(d[4..]) by { assert d[3..][1..] == d[4..]; }
    assert DropNone(d[2..]) == [(d[2].0, d[2].1.value)] + DropNone(d[3..]) by { assert d[2..][1..] == d[3..]; }
    assert DropNone(d[1..]) == [(d[1].0, d[1].1.value)] + DropNone(d[2..]) by { assert d[1..][1..] == d[2..]; }
    assert DropNone(d) == [(d[0].0, d[0].1.value)] + DropNone(d[1..]);
  }

  /** The value the payload holds under `key`: that of the draft for the seven keys it names, none for any other. */
  lemma PayloadLookup(args: CreateArgs, key: string)
    ensures Lookup(Payload(args), key) ==
      if key == "tag" then TagObject(args.tag)
      else if key == "download_password" then Optional(args.downloadPassword)
      else if key == "access_code" then Optional(args.accessCode)
      else if key == "recipients" then Some(JArray(Strings(args.recipients)))
      else if key == "message" then Some(JString(args.message))
      else if key == "subdomain" then Some(JString(args.subdomain))
      else if key == "name" then Some(JString(args.name))
      else None
  {
    PayloadShape(args);
    var required := [ ("name", JString(args.name)), ("subdomain", JString(args.subdomain)),
                      ("message", JString(args.message)), ("recipients", JArray(Strings(args.recipients))) ];
    var access := Entry("access_code", Optional(args.accessCode));
    var download := Entry("download_password", Optional(args.downloadPassword));
    var tag := Entry("tag", TagObject(args.tag));
    LookupAppend(required + access + download, tag, key);
    LookupAppend(required + access, download, key);
    LookupAppend(required, access, key);
    LookupAppend(required[..3], [required[3]], key);
    LookupAppend(required[..2], [required[2]], key);
    LookupAppend(required[..1], [required[1]], key);
    assert required[..3] + [required[3]] == required;
    assert required[..2] + [required[2]] == required[..3];
    assert required[..1] + [required[1]] == required[..2];
  }

  /** `name`, `subdomain`, `message` and `recipients` are always sent, holding the argument values. */
  lemma PayloadRequiredKeys(args: CreateArgs)
    ensures Lookup(Payload(args), "name") == Some(JString(args.name))
    ensures Lookup(Payload(args), "subdomain") == Some(JString(args.subdomain))
    ensures Lookup(Payload(args), "message") == Some(JString(args.message))
    ensures Lookup(Payload(args), "recipients") == Some(JArray(Strings(args.recipients)))
  {
    PayloadLookup(args, "name");
    PayloadLookup(args, "subdomain");
    PayloadLookup(args, "message");
    PayloadLookup(args, "recipients");
  }

  /**
   * `access_code` and `download_password` are sent exactly when the flag was given,
   * an empty string included; `tag` exactly when it is non-empty, as `{"name": tag}`.
   */
  lemma PayloadOptionalKeys(args: CreateArgs)
    ensures Lookup(Payload(args), "access_code") == Optional(args.accessCode)
    ensures Lookup(Payload(args), "download_password") == Optional(args.downloadPassword)
    ensures Lookup(Payload(args), "tag") == TagObject(args.tag)
  {
    PayloadLookup(args, "access_code");
    PayloadLookup(args, "download_password");
    PayloadLookup(args, "tag");
  }

  /** The keys sent, in order: the required four, then each optional key that has a value. */
  lemma PayloadKeys(args: CreateArgs)
    ensures KeysOf(Payload(args)) ==
      ["name", "subdomain", "message", "recipients"]
      + (if args.accessCode.Some? then ["access_code"] else [])
      + (if args.downloadPassword.Some? then ["download_password"] else [])
      + (if args.tag.Some? && args.tag.value != "" then ["tag"] else [])
  {
    PayloadShape(args);
  }

  /** No key of the payload holds JSON null. */
  lemma PayloadHasNoNull(args: CreateArgs)
    ensures forall i :: 0 <= i < |Payload(args)| ==> Payload(args)[i].1 != JNull
  {
    PayloadShape(args);
  }

  /**
   * With a team and a key, `new` sends exactly one request: a POST to the team's portal
   * collection with the JSON content type, the API key, and the serialised payload.
   */
  lemma ExecuteSendsPayload(args: CreateArgs, ctx: Context)
    requires Team(args.team, ctx.env).Some? && ApiKey(ctx.env).Some?
    ensures Execute(args, ctx).requests ==
      [HttpRequest("POST", BaseUrl + "/v1/teams/" + Team(args.team, ctx.env).value + "/portals",
                   map[ContentType := JsonMedia, ApiKeyHeader := ApiKey(ctx.env).value],
                   Some(ctx.lib.dumps(JObject(Payload(args)))))]
  {
    var team := Team(args.team, ctx.env).value;
    assert Url(TeamPortals(team)) == BaseUrl + "/v1/teams/" + team + "/portals";
  }

  /** On success, `new` prints one line built from the server's `id` and `subdomain`, and exits 0. */
  lemma ExecutePrintsServerValues(args: CreateArgs, ctx: Context, members: seq<(string, Json)>, id: string, subdomain: string)
    requires Team(args.team, ctx.env).Some?
    requires Post(args, ctx, Team(args.team, ctx.env).value).outcome == Returned(JObject(members))
    requires Lookup(members, "id") == Some(JString(id)) && Lookup(members, "subdomain") == Some(JString(subdomain))
    ensures Execute(args, ctx).code == 0
    ensures Execute(args, ctx).stdout == [id + " https://" + subdomain + ".portal.massive.io/"]
  {
  }

  /** A request that raises ends `new` with exit status 1 and the error's text, printing nothing. */
  lemma ExecuteReportsError(args: CreateArgs, ctx: Context, message: string)
    requires Team(args.team, ctx.env).Some?
    requires Post(args, ctx, Team(args.team, ctx.env).value).outcome == Raised(message)
    ensures Execute(args, ctx).code == 1 && Execute(args, ctx).stdout == []
    ensures Execute(args, ctx).stderr[|Execute(args, ctx).stderr| - 1] == ToolName + ": " + message
  {
  }

  /** A refusal whose body is `{"message": "subdomain taken"}` is reported as that text with exit status 1. */
  lemma ExecuteSubdomainTaken(args: CreateArgs, ctx: Context, status: int, text: string)
    requires Team(args.team, ctx.env).Some? && ApiKey(ctx.env).Some?
    requires !IsSuccess(status) && text != ""
    requires ctx.lib.loads(text) == Success(JObject([("message", JString("subdomain taken"))]))
    requires ctx.send(0, HttpRequest("POST", Url(TeamPortals(Team(args.team, ctx.env).value)),
                                     map[ContentType := JsonMedia, ApiKeyHeader := ApiKey(ctx.env).value],
                                     Some(ctx.lib.dumps(JObject(Payload(args)))))) ==
             Received(Response(status, text))
    ensures Execute(args, ctx).code == 1
    ensures Execute(args, ctx).stderr[|Execute(args, ctx).stderr| - 1] == "masv_portal: subdomain taken"
  {
    var team := Team(args.team, ctx.env).value;
    var call := Post(args, ctx, team);
    ServerMessageSurfaces(Response(status, text), args.verbose, ctx.lib, [("message", JString("subdomain taken"))], "subdomain taken");
    assert call.outcome == Raised("subdomain taken");
  }

  /** Without a team or an API key, `new` sends nothing and dies with the missing setting, team first. */
  lemma ExecuteWithoutCredentials(args: CreateArgs, ctx: Context)
    requires Team(args.team, ctx.env).None? || ApiKey(ctx.env).None?
    ensures Execute(args, ctx).code == 1 && Execute(args, ctx).stdout == [] && Execute(args, ctx).requests == []
    ensures Execute(args, ctx).stderr ==
      [Debug(if Team(args.team, ctx.env).None? then MissingTeam else MissingApiKey)]
  {
  }
}
