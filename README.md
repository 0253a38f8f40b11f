# masv_portal in Dafny

A model of `masv_portal`, a command-line client for the Portals of a cloud
file-transfer service. The model covers the parts of the client that make
decisions:

- the request helper builds the URL from a fixed base, injects the `X-API-Key`
  header and judges each response (`api/client.py`);
- `ls` prints one fixed-format line per portal. It prints every portal in server
  order, or the first match for each filter token, and it dies at the first
  token that matches nothing (`cli/commands/list.py`);
- `new` builds the portal payload, drops the options that were not given, posts
  it and prints the new portal's address (`cli/commands/create.py`);
- `rm` deletes the given ids one by one and stops at the first failure
  (`cli/commands/delete.py`);
- `die`, the API key and the team from `config.py`, as far as the commands use
  them.

Everything outside the client is an input. A `Context` holds the environment
(`MASV_API_KEY`, `MASV_TEAM`), the JSON library (`json.loads`, `json.dumps`,
Python's `str` of a non-string value) and the server. The server is a function
`send(n, request)` that answers the n-th request the process makes. A run
returns an `Exit`: the exit status, the lines written to standard output and to
standard error, and the requests put on the wire. Python exceptions become
`Result` failures carrying the text `str(e)` would give. `die` ends a run with
status 1 after writing `masv_portal: <cause>`. Its `SystemExit` is not an
`Exception`, so no `except` block in the commands catches it.

Files: `wrappers.dfy` (Option, Result), `json.dfy` (JSON values and the Python
dict operations the client applies to them), `config.dfy`, `client.dfy`,
`process.dfy` (the `Exit` record and `die`), `list.dfy`, `create.dfy`,
`delete.dfy`.

Where the code and its docstrings or command-line help promise different things, the model follows the code:

- An empty `--tag` is dropped even though it was given. An empty `--access_code`
  or `--download_password` is sent as `""` (create.py:83-89).
- `get_tag` gives `""` when the portal has no `tag` and also when the tag has no
  `name`. A `tag` that is JSON null makes it raise (list.py:24).
- A failure status whose body is not a JSON object fails with Python's
  AttributeError text, not "Unknown error" (client.py:39).
- `ls` with a body that is a JSON object iterates its keys. An empty body is the
  empty mapping: without filter tokens `ls` then prints nothing and exits 0
  (list.py:79-81); with tokens, the first token dies with `No such portal <token>`
  (list.py:83-92).
- An empty header dict given by a caller is replaced, not updated in place, because
  `headers or {}` treats it as false (client.py:69).

## Model

| member | source | states |
|---|---|---|
| Config.ApiKey | masv_portal/src/masv_portal/config.py:52-55 | the key is present exactly when `MASV_API_KEY` is set and non-empty; a present key is never empty |
| Config.Team | masv_portal/src/masv_portal/cli/commands/list.py:70 | the team is `--team` when non-empty, otherwise the environment team; missing only when both are unset or empty; a resolved team is never empty |
| Process.Die | masv_portal/src/masv_portal/config.py:23-31 | `die` appends `masv_portal: <cause>` to standard error and exits 1, keeping what was already printed and sent |
| Client.Digits | masv_portal/src/masv_portal/api/client.py:35 | the status is written as its decimal numeral: digits only, no leading zero, denoting exactly the number |
| Client.Url | masv_portal/src/masv_portal/api/client.py:68 | the URL is exactly `https://api.massive.app` followed by the path, unescaped |
| Client.WithApiKey | masv_portal/src/masv_portal/api/client.py:69-70 | the headers sent are the caller's headers plus `X-API-Key`. Its value is the key, whatever the caller gave; every other header is unchanged |
| Client.PrepareRequest | masv_portal/src/masv_portal/api/client.py:68-70 | a non-empty caller dict receives the key in place and is the dict sent. A missing or empty dict is replaced by a fresh one and left alone. Without a key nothing is changed and nothing is sent |
| Client.ParseBody | masv_portal/src/masv_portal/api/client.py:31-32 | an empty body is the empty mapping; any other body is what the parser makes of it |
| Client.CheckResponse | masv_portal/src/masv_portal/api/client.py:17-41 | success exactly for a 2xx status with a parsable body, which is returned unchanged. An unparsable body fails with the parser's error and no diagnostics, whatever the status. A non-2xx object body fails with its `message` or "Unknown error". Diagnostics appear only when verbose |
| Client.EmptyBodyIsEmptyMapping | masv_portal/src/masv_portal/api/client.py:31-41 | an empty body with a 2xx status gives the empty mapping; with any other status it gives "Unknown error" |
| Client.ServerMessageSurfaces | masv_portal/src/masv_portal/api/client.py:38-39 | a failing status whose body has a string `message` fails with exactly that text |
| Client.ParseFailsFirst | masv_portal/src/masv_portal/api/client.py:31-39 | an unparsable body gives the same failure for every status and verbosity, before any diagnostic |
| Client.Request | masv_portal/src/masv_portal/api/client.py:43-82 | without a key the call dies with the missing-key cause and sends nothing. Otherwise it sends exactly one request: the method, the URL, the key-injected headers and the body. An unreachable server raises the transport's text. A received response is returned exactly when `check_response` succeeds, as its value; otherwise it raises `check_response`'s error. A returned value is the parsed body of a 2xx response. Nothing goes to standard error unless verbose; when verbose, the URL line comes first, followed by `check_response`'s status and body lines for a received reply |
| Client.VerboseOnlyWritesDiagnostics | masv_portal/src/masv_portal/api/client.py:72-73 | `verbose` changes neither the outcome nor the requests sent |
| ListCommand.GetTag | masv_portal/src/masv_portal/cli/commands/list.py:15-24 | `""` without a `tag`; the tag's `name`, or `""`, when the tag is an object; an error exactly when the portal is not an object or its tag is not one |
| ListCommand.GetTagOfPortal | masv_portal/src/masv_portal/cli/commands/list.py:24 | for a well-formed portal the tag is its tag name, `""` when there is no tag or no name |
| ListCommand.Line | masv_portal/src/masv_portal/cli/commands/list.py:26-35 | a line is produced exactly when the portal is an object with `id`, `created_at` and `subdomain` and a readable tag; a missing `id` raises KeyError `'id'` |
| ListCommand.LineOfPortal | masv_portal/src/masv_portal/cli/commands/list.py:35 | a well-formed portal prints as `id created_at "tag" subdomain` |
| ListCommand.Matches | masv_portal/src/masv_portal/cli/commands/list.py:86 | a portal matches exactly when its `id` equals the token, or its `id` is readable and its `subdomain` equals the token. The test raises exactly when `id` is unreadable, or `id` differs and `subdomain` is unreadable |
| ListCommand.Find | masv_portal/src/masv_portal/cli/commands/list.py:84-88 | a found index is in range and its portal matches the token |
| ListCommand.FindIsFirst | masv_portal/src/masv_portal/cli/commands/list.py:84-88 | the found portal is the first match in server order. A miss means no portal matches. An error comes from the first portal the test cannot read |
| ListCommand.FindIsFirstNamed | masv_portal/src/masv_portal/cli/commands/list.py:84-88 | among well-formed portals the search never raises. It finds the first portal whose `id` or `subdomain` is the token, and misses exactly when none is |
| ListCommand.PrintEvery | masv_portal/src/masv_portal/cli/commands/list.py:79-81 | the printing loop produces the lines and the failure of `PrintAll` |
| ListCommand.PrintSelected | masv_portal/src/masv_portal/cli/commands/list.py:83-92 | the filter loop produces the lines and the failure of `Select` |
| ListCommand.Execute | masv_portal/src/masv_portal/cli/commands/list.py:61-97 | a run of `ls` is `Run`: it resolves the team, makes the GET, then prints everything or the selected portals, dying on the first failure |
| ListCommand.PrintAllInServerOrder | masv_portal/src/masv_portal/cli/commands/list.py:79-81 | with no filters every well-formed portal prints exactly once, in server order, and the run does not fail |
| ListCommand.SelectAllMatched | masv_portal/src/masv_portal/cli/commands/list.py:83-93 | when every token matches a well-formed portal, the selection is one line per token, in token order, each the line of the token's first match, and nothing fails |
| ListCommand.SelectStopsAtUnmatched | masv_portal/src/masv_portal/cli/commands/list.py:83-92 | the selection stops at the first unmatched token with the failure "No such portal <token>", keeping the lines of the tokens before it |
| ListCommand.SelectIgnoresLaterTokens | masv_portal/src/masv_portal/cli/commands/list.py:89-92 | once the run has died, tokens after the failing one make no difference: they are never looked up |
| ListCommand.RunRequest | masv_portal/src/masv_portal/cli/commands/list.py:73-77 | `ls` sends nothing without a team or key, and otherwise exactly one GET of `/v1/teams/<team>/portals` with only the key header and no body |
| ListCommand.RunWithoutCredentials | masv_portal/src/masv_portal/cli/commands/list.py:70-77 | without a team or an API key, `ls` sends nothing, prints nothing and exits 1. Standard error holds only `masv_portal: <missing setting>`, and the team is checked first |
| ListCommand.RunPrints | masv_portal/src/masv_portal/cli/commands/list.py:72-97 | once a 2xx list of portals has arrived, the run exits 0 exactly when printing did not fail. Standard output is the printed lines. On a failure the run exits 1, and its last standard-error line is `masv_portal: <cause>` |
| ListCommand.RunListsEveryPortal | masv_portal/src/masv_portal/cli/commands/list.py:79-81 | with no tokens and well-formed portals, the run exits 0 and prints each portal's line once, in server order |
| ListCommand.RunListsEveryMatch | masv_portal/src/masv_portal/cli/commands/list.py:83-93 | when every token matches, the run exits 0 and prints one line per token, in token order, each the token's first match |
| ListCommand.RunStopsAtUnmatched | masv_portal/src/masv_portal/cli/commands/list.py:83-92 | at the first unmatched token the run exits 1 with `masv_portal: No such portal <token>`, having printed the lines of the tokens before it |
| ListCommand.RunVerboseOnlyDiagnostics | masv_portal/src/masv_portal/cli/commands/list.py:73-77 | `--verbose` changes neither the exit status nor the lines printed nor the requests |
| CreateCommand.Optional | masv_portal/src/masv_portal/cli/commands/create.py:81-82 | an option's entry has a value exactly when the flag was given, and holds the flag's string |
| CreateCommand.TagObject | masv_portal/src/masv_portal/cli/commands/create.py:83-85 | the tag entry has a value exactly when the tag is non-empty, and the value is the object `{"name": tag}` |
| CreateCommand.Entry | masv_portal/src/masv_portal/cli/commands/create.py:89 | one filtered entry holds at most one member, and looking its key up gives back the entry's value or nothing |
| CreateCommand.DropNone | masv_portal/src/masv_portal/cli/commands/create.py:89 | filtering never adds entries |
| CreateCommand.DropNoneAppend | masv_portal/src/masv_portal/cli/commands/create.py:89 | filtering keeps the order of the entries it keeps |
| CreateCommand.DropNoneKeeps | masv_portal/src/masv_portal/cli/commands/create.py:89 | `(k, v)` survives the filter exactly when the draft held `(k, Some(v))` |
| CreateCommand.PayloadShape | masv_portal/src/masv_portal/cli/commands/create.py:76-89 | the payload is the four required members followed by `access_code`, `download_password` and `tag`, each only when it has a value |
| CreateCommand.PayloadLookup | masv_portal/src/masv_portal/cli/commands/create.py:76-89 | each of the seven keys holds the draft's value; any other key is absent |
| CreateCommand.PayloadRequiredKeys | masv_portal/src/masv_portal/cli/commands/create.py:76-80 | `name`, `subdomain`, `message` and `recipients` are always present with the argument values |
| CreateCommand.PayloadOptionalKeys | masv_portal/src/masv_portal/cli/commands/create.py:81-89 | `access_code` and `download_password` are present exactly when given, `""` included. `tag` is present exactly when non-empty, as `{"name": tag}` |
| CreateCommand.PayloadKeys | masv_portal/src/masv_portal/cli/commands/create.py:76-89 | the keys sent, in order, are the required four and then each optional key that has a value |
| CreateCommand.PayloadHasNoNull | masv_portal/src/masv_portal/cli/commands/create.py:89 | no member of the payload holds JSON null |
| CreateCommand.Execute | masv_portal/src/masv_portal/cli/commands/create.py:72-105 | `new` exits 0 or 1. A success prints exactly one line. A failure prints nothing to standard output and writes a diagnostic. At most one request is sent |
| CreateCommand.ExecuteSendsPayload | masv_portal/src/masv_portal/cli/commands/create.py:91-98 | with a team and key, exactly one POST goes to `/v1/teams/<team>/portals`. It carries `Content-Type: application/json`, the key and the serialised payload |
| CreateCommand.ExecutePrintsServerValues | masv_portal/src/masv_portal/cli/commands/create.py:100-101 | on success the one line printed is `<id> https://<subdomain>.portal.massive.io/` from the server's values, and the exit status is 0 |
| CreateCommand.ExecuteReportsError | masv_portal/src/masv_portal/cli/commands/create.py:103-105 | a raised request error ends the run with status 1 and `masv_portal: <message>`, printing nothing |
| CreateCommand.ExecuteWithoutCredentials | masv_portal/src/masv_portal/cli/commands/create.py:74-98 | without a team or an API key, `new` sends nothing, prints nothing and exits 1. Standard error holds only `masv_portal: <missing setting>`, and the team is checked first |
| CreateCommand.ExecuteSubdomainTaken | masv_portal/src/masv_portal/cli/commands/create.py:91-105 | a refusal whose body is `{"message": "subdomain taken"}` ends the run with status 1 and that text |
| DeleteCommand.Execute | masv_portal/src/masv_portal/cli/commands/delete.py:35-47 | ids are attempted in order, and the run exits 0 exactly when every deletion succeeds. At the first failure it dies with that error's text, having sent the requests for that id and those before it, and none after. Nothing is printed to standard output |
| DeleteCommand.IssuedOnePerId | masv_portal/src/masv_portal/cli/commands/delete.py:37-43 | with a key, the first n attempts send exactly n requests; the i-th is a DELETE of `/v1/portals/<id i>` carrying only the key |
| DeleteCommand.WithoutKeyNothingIsSent | masv_portal/src/masv_portal/cli/commands/delete.py:37-46 | without a key the first id already fails, with nothing sent and the missing key as the cause |
| DeleteCommand.VerboseOnlyDiagnostics | masv_portal/src/masv_portal/cli/commands/delete.py:39-43 | `--verbose` changes neither which ids are deleted nor the requests sent |

## Left out

- The HTTP client, its connection handling and timeouts, and the asyncio event-loop
  wrapper (api/client.py:75-82, 97-113) are foreign I/O. The server is the `send`
  input and a transport exception is a `Reply.Unreachable` with its text.
- `json.loads`, `json.dumps` and Python's `str` of non-string values are library
  code. They are the functions of `Json.Library`, and the model says nothing about
  what they compute.
- JSON numbers with a fraction or an exponent are not modelled; `Json.JNumber`
  holds an integer.
- Reading the process environment and the `.env` file (config.py:19, 52, 67) is
  process I/O. The two variables are the `Config.Env` input.
- Argument parsing, the `Command` base class, `get_portal_commands`, the re-exports
  and `__main__.py` (help on no subcommand, `--version`, the top-level
  `Error: <message>` handler) are library-driven plumbing. No exception escapes the
  three commands for that handler to catch.
- Standard output and standard error are separate line sequences. How the two
  streams interleave is not modelled.
- Python's message for indexing a string with a string key is the one of
  Python 3.11 and later. Earlier versions omit `, not 'str'`.
- `Json.Iterate` of a dict with duplicate keys lists every occurrence. Python
  lists each key once. No run can tell the difference, because the client raises
  on the first key it visits.
- `Client.Request` takes the headers as a value. The in-place update of a caller's
  dict is modelled separately by `Client.PrepareRequest`. No command reads its
  header dict after the call.
