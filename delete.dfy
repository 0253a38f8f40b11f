/**
 * The `rm` command (masv_portal/cli/commands/delete.py): one DELETE per id, in the
 * order given, stopping at the first that fails.
 */
module DeleteCommand {
  import opened Wrappers
  import opened Config
  import opened Client
  import opened Process

  /** The parsed command line: the ids to delete and the global `--verbose`. */
  datatype DeleteArgs = DeleteArgs(ids: seq<string>, verbose: bool)

  /** The path of one portal. */
  function PortalPath(id: string): string {
    "/v1/portals/" + id
  }

  /**
   * The request for the i-th id. It is the i-th request of the process: it is made only
   * after every earlier id was deleted, and each of those sent exactly one request.
   */
  function Attempt(args: DeleteArgs, ctx: Context, i: nat): Call
    requires i < |args.ids|
  {
    Request(ctx, i, PortalPath(args.ids[i]), "DELETE", map[], None, args.verbose)
  }

  /** The i-th id was deleted: its request returned. */
  predicate Deleted(args: DeleteArgs, ctx: Context, i: nat)
    requires i < |args.ids|
  {
    Attempt(args, ctx, i).outcome.Returned?
  }

  /** The k-th id is the first whose deletion fails. */
  predicate FirstFailure(args: DeleteArgs, ctx: Context, k: nat)
    requires k < |args.ids|
  {
    !Deleted(args, ctx, k) && forall j :: 0 <= j < k ==> Deleted(args, ctx, j)
  }

  /** The requests put on the wire for the first n ids, in order. */
  function Issued(args: DeleteArgs, ctx: Context, n: nat): seq<HttpRequest>
    requires n <= |args.ids|
  {
    if n == 0 then [] else Issued(args, ctx, n - 1) + Attempt(args, ctx, n - 1).requests
  }

  /** The diagnostics written for the first n ids, in order. */
  function Logged(args: DeleteArgs, ctx: Context, n: nat): seq<string>
    requires n <= |args.ids|
  {
    if n == 0 then [] else Logged(args, ctx, n - 1) + Attempt(args, ctx, n - 1).stderr
  }

  /**
   * `DeleteCommand.execute`: the ids are attempted in order; the run exits 0 exactly when
   * every deletion succeeds, and otherwise dies at the first failure, having attempted
   * that id and none after it. Nothing goes to standard output.
   */
  method Execute(args: DeleteArgs, ctx: Context) returns (exit: Exit)
    ensures exit.stdout == []
    ensures exit.code == 0 || exit.code == 1
    ensures exit.code == 0 <==> forall i :: 0 <= i < |args.ids| ==> Deleted(args, ctx, i)
    ensures exit.code == 0 ==>
      exit.requests == Issued(args, ctx, |args.ids|) && exit.stderr == Logged(args, ctx, |args.ids|)
    ensures forall k :: 0 <= k < |args.ids| && FirstFailure(args, ctx, k) ==>
      && exit.requests == Issued(args, ctx, k + 1)
      && exit.stderr == Logged(args, ctx, k + 1) + [Debug(Message(Attempt(args, ctx, k).outcome))]
  {
    var requests: seq<HttpRequest> := [];
    var stderr: seq<string> := [];
    var i := 0;
    while i < |args.ids|
      invariant 0 <= i <= |args.ids|
      invariant forall j :: 0 <= j < i ==> Deleted(args, ctx, j)
      invariant requests == Issued(args, ctx, i) && stderr == Logged(args, ctx, i)
    {
      var call := Request(ctx, i, PortalPath(args.ids[i]), "DELETE", map[], None, args.verbose);
      requests := requests + call.requests;
      stderr := stderr + call.stderr;
      if !call.outcome.Returned? {
        assert FirstFailure(args, ctx, i);
        return Die([], stderr, requests, Message(call.outcome));
      }
      i := i + 1;
    }
    return Exit(0, [], stderr, requests);
  }

  // ---- What the source promises, as lemmas ----

  /**
   * With an API key, the first n attempts put exactly n requests on the wire: the i-th is
   * a DELETE of the i-th id carrying only the key.
   */
  lemma {:induction false} IssuedOnePerId(args: DeleteArgs, ctx: Context, n: nat)
    requires n <= |args.ids| && ApiKey(ctx.env).Some?
    ensures |Issued(args, ctx, n)| == n
    ensures forall i :: 0 <= i < n ==>
      Issued(args, ctx, n)[i] ==
        HttpRequest("DELETE", BaseUrl + "/v1/portals/" + args.ids[i], map[ApiKeyHeader := ApiKey(ctx.env).value], None)
  {
    if n > 0 {
      IssuedOnePerId(args, ctx, n - 1);
      var key := ApiKey(ctx.env).value;
      assert Url(PortalPath(args.ids[n - 1])) == BaseUrl + "/v1/portals/" + args.ids[n - 1];
      assert WithApiKey(map[], key) == map[ApiKeyHeader := key];
    }
  }

  /** Without an API key the first id already fails, with nothing sent and the missing key as the cause. */
  lemma WithoutKeyNothingIsSent(args: DeleteArgs, ctx: Context)
    requires ApiKey(ctx.env).None? && |args.ids| > 0
    ensures FirstFailure(args, ctx, 0)
    ensures Issued(args, ctx, 1) == []
    ensures Message(Attempt(args, ctx, 0).outcome) == MissingApiKey
  {
  }

  /** `verbose` changes neither which ids are deleted nor the requests sent. */
  lemma {:induction false} VerboseOnlyDiagnostics(args: DeleteArgs, ctx: Context, n: nat)
    requires n <= |args.ids|
    ensures forall i :: 0 <= i < n ==> Deleted(args.(verbose := true), ctx, i) == Deleted(args.(verbose := false), ctx, i)
    ensures Issued(args.(verbose := true), ctx, n) == Issued(args.(verbose := false), ctx, n)
  {
    if n > 0 {
      VerboseOnlyDiagnostics(args, ctx, n - 1);
      forall i | 0 <= i < n
        ensures Deleted(args.(verbose := true), ctx, i) == Deleted(args.(verbose := false), ctx, i)
      {
        VerboseOnlyWritesDiagnostics(ctx, i, PortalPath(args.ids[i]), "DELETE", map[], None);
      }
    }
  }
}
