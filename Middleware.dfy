/** `ProfileMiddleware`: routes each request to the viewer, the call-graph
    image or the application, profiles the application's requests, keeps
    their results and serves them back. */
module Middleware {
  import opened Text
  import opened Template
  import opened Headers
  import opened Store
  import opened Response

  /** The parts of the WSGI environ the middleware reads; `params` is the
      query string as `_parse_params` decodes it. */
  datatype Environ = Environ(requestMethod: string, pathInfo: string, params: map<string, string>)

  // ---------------------------------------------------------------------------
  // Routing (__call__)
  // ---------------------------------------------------------------------------

  datatype Handler = Viewer | Tree | Record

  const ViewerPath: string := "__profile__"
  const TreePath: string := "__profile__/tree.png"

  /** Which handler serves a request: only a GET of the viewer's or the
      image's path, with any slashes around it, is served by the profiler
      itself; everything else goes to the application. */
  function Route(requestMethod: string, pathInfo: string): (h: Handler)
    ensures h == Viewer <==> requestMethod == "GET" && Strip(pathInfo, '/') == ViewerPath
    ensures h == Tree <==> requestMethod == "GET" && Strip(pathInfo, '/') == TreePath
  {
    if requestMethod == "GET" then
      var path := Strip(pathInfo, '/');
      if path == ViewerPath then Viewer
      else if path == TreePath then Tree
      else Record
    else Record
  }

  /** Leading and trailing slashes, any number of them, do not change where
      a GET goes: `/__profile__`, `__profile__/` and `//__profile__//` all
      reach the viewer. */
  lemma RouteIgnoresSlashes(lead: string, trail: string)
    requires AllChar(lead, '/') && AllChar(trail, '/')
    ensures Route("GET", lead + ViewerPath + trail) == Viewer
    ensures Route("GET", lead + TreePath + trail) == Tree
  {
    StripSurrounded(lead, ViewerPath, trail, '/');
    StripSurrounded(lead, TreePath, trail, '/');
  }

  // ---------------------------------------------------------------------------
  // What the handlers depend on but do not compute themselves
  // ---------------------------------------------------------------------------

  /** The library and process calls the handlers make. */
  datatype Externals = Externals(
    // `eval` of a placeholder expression against the template dictionary
    evaluate: (string, TemplateDict) -> string,
    // pstats: merge the results, strip_dirs, sort_stats(order), print_stats;
    // None where sort_stats raises KeyError for an order it does not know
    statsDump: (seq<ProfileResult>, string) -> Option<string>,
    // Python's float() on a query value; None where it raises ValueError
    parseFloat: string -> Option<real>,
    // gprof2dot with the two prune thresholds, then `dot -Tpng`;
    // None where `dot` cannot be run
    renderPng: (seq<ProfileResult>, real, real) -> Option<Bytes>)

  /** A response the middleware produces itself: what it passes to
      `start_response` and the chunks of the list it returns. */
  datatype Reply = Reply(started: StartCall, chunks: seq<Bytes>)

  const Ok: string := "200 OK"
  const TextHtml: string := "text/html"
  const TextPlain: string := "text/plain"
  const ImagePng: string := "image/png"
  const NoMatchingLog: string := "No matching log."
  const DotMissing: string := "ERROR: Failed to execute \"dot\". Please install graphviz."
  const NoMatchingLogBytes: Bytes := AsciiBytes(NoMatchingLog)
  const DotMissingBytes: Bytes := AsciiBytes(DotMissing)

  const SortKey: string := "sort"
  const DefaultSort: string := "cumtime"
  const NodeThresholdKey: string := "node_thres"
  const EdgeThresholdKey: string := "edge_thres"

  /** A `200 OK` with a single `Content-Type` header. */
  function OkReply(contentType: string, chunk: Bytes): Reply
  {
    Reply(StartCall(Ok, [Header(ContentType, contentType)]), [chunk])
  }

  // ---------------------------------------------------------------------------
  // The viewer page (_viewer_handler)
  // ---------------------------------------------------------------------------

  /** `params.get('sort', 'cumtime')`. */
  function SortOrder(params: map<string, string>): string
  {
    if SortKey in params then params[SortKey] else DefaultSort
  }

  /** The text shown in the page's `<pre>`, or the `KeyError` that
      `sort_stats` raises for an unknown sort order. With no result pstats is
      not called, so the order is not looked at. */
  function StatsDump(params: map<string, string>, results: seq<ProfileResult>, ext: Externals): Result<string, Error>
  {
    if |results| == 0 then Success(NoMatchingLog)
    else match ext.statsDump(results, SortOrder(params))
      case None => Failure(KeyError(SortOrder(params)))
      case Some(dump) => Success(dump)
  }

  /** The response of the viewer rendering `template` (the middleware's is
      `ViewerTemplate`), or the `KeyError` of an unknown id or sort order. */
  function ViewerResponse(t: Tables, template: string, params: map<string, string>, ext: Externals): Result<Reply, Error>
    requires WellFormed(t)
  {
    match Lookup(t, params)
    case Failure(e) => Failure(e)
    case Success(results) =>
      match StatsDump(params, results, ext)
      case Failure(e) => Failure(e)
      case Success(dump) =>
        var page := Render(template, ext.evaluate, TemplateDict(params, dump));
        Success(OkReply(TextHtml, Utf8(page)))
  }

  /** The viewer answers with a page exactly when the lookup succeeds and
      either nothing matches or pstats knows the sort order; otherwise it
      raises `KeyError` for the unknown id or the unknown order, before
      `start_response` is called. */
  lemma ViewerOutcome(t: Tables, template: string, params: map<string, string>, ext: Externals)
    requires WellFormed(t)
    ensures ViewerResponse(t, template, params, ext).Success? <==>
              Lookup(t, params).Success?
              && (|Lookup(t, params).value| == 0
                  || ext.statsDump(Lookup(t, params).value, SortOrder(params)).Some?)
    ensures Lookup(t, params).Failure? ==>
              ViewerResponse(t, template, params, ext) == Failure(Lookup(t, params).error)
    ensures Lookup(t, params).Success? && |Lookup(t, params).value| > 0
            && ext.statsDump(Lookup(t, params).value, SortOrder(params)).None? ==>
              ViewerResponse(t, template, params, ext) == Failure(KeyError(SortOrder(params)))
  {
  }

  /** With no matching result the viewer still answers with its page, whose
      `<pre>` holds "No matching log.", provided `stats_dump` evaluates to
      the dictionary's entry as Python's `eval` does. This holds for every
      template ending in the statistics line, `ViewerTemplate` among them. */
  lemma ViewerNoMatch(t: Tables, head: string, params: map<string, string>, ext: Externals)
    requires WellFormed(t) && Lookup(t, params) == Success([])
    requires ext.evaluate(StatsDumpExpression, TemplateDict(params, NoMatchingLog)) == NoMatchingLog
    ensures ViewerResponse(t, WithStatsLine(head), params, ext)
            == Success(OkReply(TextHtml, Utf8(
                 Render(head, ext.evaluate, TemplateDict(params, NoMatchingLog))
                 + "\n" + PreOpen + NoMatchingLog + PageClose)))
  {
    var dict := TemplateDict(params, NoMatchingLog);
    StatsLineRenders(head, ext.evaluate, dict);
    NoMatchingLogIsPlain();
  }

  /** The notice has no character that escaping would change. */
  lemma NoMatchingLogIsPlain()
    ensures Escape(NoMatchingLog) == NoMatchingLog
  {
    EscapePlain(NoMatchingLog);
  }

  // ---------------------------------------------------------------------------
  // The call-graph image (_tree_handler)
  // ---------------------------------------------------------------------------

  /** `float(params.get(key, default))`. */
  function Threshold(params: map<string, string>, key: string, default: real, parseFloat: string -> Option<real>): Result<real, Error>
  {
    if key in params then
      match parseFloat(params[key])
      case None => Failure(ValueError(params[key]))
      case Some(x) => Success(x)
    else Success(default)
  }

  /** The response of the image view: both thresholds are read first, then
      the results; no result gives a plain-text notice, otherwise the
      rendered PNG, or a plain-text error when `dot` cannot be run. */
  function TreeResponse(t: Tables, params: map<string, string>, ext: Externals): Result<Reply, Error>
    requires WellFormed(t)
  {
    match Threshold(params, NodeThresholdKey, 0.5, ext.parseFloat)
    case Failure(e) => Failure(e)
    case Success(node) =>
      match Threshold(params, EdgeThresholdKey, 0.1, ext.parseFloat)
      case Failure(e) => Failure(e)
      case Success(edge) =>
        match Lookup(t, params)
        case Failure(e) => Failure(e)
        case Success(results) =>
          if |results| == 0 then Success(OkReply(TextPlain, NoMatchingLogBytes))
          else
            match ext.renderPng(results, node / 100.0, edge / 100.0)
            case None => Success(OkReply(TextPlain, DotMissingBytes))
            case Some(png) => Success(OkReply(ImagePng, png))
  }

  /** With readable thresholds and no matching result, the image view answers
      `200 OK`, `text/plain` and exactly the bytes "No matching log.", which
      are the UTF-8 encoding of the notice the viewer shows. */
  lemma TreeNoMatch(t: Tables, params: map<string, string>, ext: Externals)
    requires WellFormed(t) && Lookup(t, params) == Success([])
    requires Threshold(params, NodeThresholdKey, 0.5, ext.parseFloat).Success?
    requires Threshold(params, EdgeThresholdKey, 0.1, ext.parseFloat).Success?
    ensures TreeResponse(t, params, ext) == Success(OkReply(TextPlain, NoMatchingLogBytes))
    ensures NoMatchingLogBytes == Utf8(NoMatchingLog)
  {
    AsciiBytesAreUtf8(NoMatchingLog);
  }

  // ---------------------------------------------------------------------------
  // A profiled application run (_record_handler)
  // ---------------------------------------------------------------------------

  /** The application's call of `start_response`, with its own header list. */
  datatype StartRequest = StartRequest(status: string, headers: HeaderList)

  /** How the application's run ends. */
  datatype AppResult = Returned(body: Body) | Failed(message: string)

  /** What the wrapped application does when it runs: whether it starts its
      response, the statistics cProfile gathers meanwhile, and how it ends. */
  datatype AppRun = AppRun(start: Option<StartRequest>, stats: ProfileStats, result: AppResult)

  /** One recorded request: its id and formatted duration, which the source
      takes from the clock, and what the application does. */
  datatype RecordRun = RecordRun(id: string, elapsed: string, app: AppRun)

  /** The objects of the application that the record handler may change. */
  function AppObjects(app: AppRun): set<object>
  {
    (if app.start.Some? then {app.start.value.headers} else {})
    + (if app.result.Returned? then Objects(app.result.body) else {})
  }

  /** What the middleware passes on to the server. */
  datatype Outcome =
    | Response(started: Option<StartCall>, body: Body)
    | Raised(started: Option<StartCall>, error: Error)

  /** The application's header list and the chunks of its body at one
      moment: what a run's outcome depends on. */
  datatype AppState = AppState(headers: Option<seq<Header>>, chunks: seq<Bytes>)

  function Snapshot(app: AppRun): (a: AppState)
    reads AppObjects(app)
    ensures a.headers.Some? <==> app.start.Some?
  {
    AppState(if app.start.Some? then Some(app.start.value.headers.entries) else None,
             if app.result.Returned? then Chunks(app.result.body) else [])
  }

  /** Whether the hook sees an HTML response. */
  predicate SawHtml(before: AppState)
  {
    before.headers.Some? && HtmlOutput(before.headers.value)
  }

  /** The chunks the returned body yields; none when the run raised. */
  function OutChunks(out: Outcome): seq<Bytes>
    reads if out.Response? then Objects(out.body) else {}
  {
    if out.Response? then Chunks(out.body) else []
  }

  /** The outcome of a profiled run, from the application's state `before`
      and `after` it and the chunks `outChunks` of the body it returns: the
      application's `start_response` call is forwarded with its headers as
      the hook leaves them, its exception is passed on, and its body is
      returned unchanged, or with the profiler link as one more chunk when
      the response is HTML. */
  predicate Recorded(run: RecordRun, before: AppState, after: AppState, out: Outcome, outChunks: seq<Bytes>)
  {
    var app := run.app;
    && (app.start.Some? ==>
          before.headers.Some? && after.headers.Some?
          && after.headers.value == Hooked(before.headers.value)
          && out.started == Some(StartCall(app.start.value.status, after.headers.value)))
    && (app.start.None? ==> out.started == None)
    && (app.result.Failed? ==> out.Raised? && out.error == AppError(app.result.message))
    && (app.result.Returned? ==>
          out.Response?
          && if SawHtml(before) then
               outChunks == before.chunks + [ProfileLink(run.elapsed, run.id)]
             else
               out.body == app.result.body && outChunks == before.chunks)
  }

  /** The application starts its response through a new hook, which edits
      its header list and forwards the call. */
  method StartThroughHook(app: AppRun) returns (hook: StartResponseHook, started: Option<StartCall>)
    modifies if app.start.Some? then {app.start.value.headers} else {}
    ensures fresh(hook)
    ensures hook.htmlOutput == Some(true) <==> SawHtml(old(Snapshot(app)))
    ensures app.start.Some? ==>
              app.start.value.headers.entries == Hooked(old(app.start.value.headers.entries))
    ensures started == (if app.start.Some? then Some(StartCall(app.start.value.status, app.start.value.headers.entries)) else None)
  {
    hook := new StartResponseHook();
    started := None;
    if app.start.Some? {
      var forwarded := hook.Call(app.start.value.status, app.start.value.headers);
      started := Some(forwarded);
    }
  }

  /** The `try` block of the record handler: the profiled run of the
      application, with the link added to an HTML body. */
  method RunApplication(run: RecordRun) returns (out: Outcome, ghost after: AppState, ghost outChunks: seq<Bytes>)
    modifies AppObjects(run.app)
    ensures after == Snapshot(run.app) && outChunks == OutChunks(out)
    ensures Recorded(run, old(Snapshot(run.app)), after, out, outChunks)
    ensures out.Response? && run.app.result.body.TupleBody? && SawHtml(old(Snapshot(run.app))) ==>
              out.body.ListBody? && fresh(out.body.list)
    ensures out.Response? && run.app.result.body.ListBody? ==> out.body == run.app.result.body
  {
    var app := run.app;
    var hook, started := StartThroughHook(app);
    match app.result {
      case Failed(message) =>
        out := Raised(started, AppError(message));
      case Returned(body) =>
        assert Chunks(body) == old(Snapshot(app)).chunks;
        var response := body;
        if hook.htmlOutput == Some(true) {
          response := AppendLink(body, ProfileLink(run.elapsed, run.id));
        }
        out := Response(started, response);
    }
    after, outChunks := Snapshot(app), OutChunks(out);
  }

  // ---------------------------------------------------------------------------
  // The middleware object
  // ---------------------------------------------------------------------------

  class ProfileMiddleware {
    /** `_result_by_id`. */
    var resultById: map<string, ProfileResult>
    /** The keys of `_results_by_path` in insertion order (Python 3.7). */
    var pathOrder: seq<string>
    /** `_results_by_path`. */
    var resultsByPath: map<string, seq<ProfileResult>>
    /** The page the viewer renders, `_VIEWER_TEMPLATE`. */
    const viewerTemplate: string

    function State(): Tables
      reads this
    {
      Tables(resultById, pathOrder, resultsByPath)
    }

    ghost predicate Valid()
      reads this
    {
      WellFormed(State())
    }

    constructor()
      ensures Valid() && State() == Empty
      ensures viewerTemplate == ViewerTemplate
    {
      // The text of the page plays no part in this proof.
      hide ViewerTemplate, ViewerHead;
      resultById := map[];
      pathOrder := [];
      resultsByPath := map[];
      viewerTemplate := ViewerTemplate;
    }

    /** The `finally` block of the record handler. */
    method Commit(path: string, id: string, result: ProfileResult)
      requires Valid()
      modifies this
      ensures Valid()
      ensures State() == Store.Commit(old(State()), path, id, result)
    {
      resultById := resultById[id := result];
      if path in resultsByPath {
        resultsByPath := resultsByPath[path := resultsByPath[path] + [result]];
      } else {
        pathOrder := pathOrder + [path];
        resultsByPath := resultsByPath[path := [result]];
      }
      // The invariant carries over through the commit of the tables.
      assert State() == Store.Commit(old(State()), path, id, result);
    }

    /** `_get_results_by_request`. */
    method GetResultsByRequest(params: map<string, string>) returns (r: Result<seq<ProfileResult>, Error>)
      requires Valid()
      ensures r == Lookup(State(), params)
    {
      var requestId := if RequestIdKey in params then params[RequestIdKey] else "";
      if requestId != "" {
        if requestId !in resultById {
          return Failure(KeyError(requestId));
        }
        return Success([resultById[requestId]]);
      }
      var prefix := if PathPrefixKey in params then params[PathPrefixKey] else "";
      var results := [];
      for i := 0 to |pathOrder|
        invariant results == Collect(pathOrder[..i], resultsByPath, prefix)
      {
        var path := pathOrder[i];
        assert pathOrder[..i + 1][..i] == pathOrder[..i];
        if StartsWith(path, prefix) {
          results := results + resultsByPath[path];
        }
      }
      assert pathOrder[..|pathOrder|] == pathOrder;
      return Success(results);
    }

    /** `_viewer_handler`. The method runs the lookup loop of
        `GetResultsByRequest`; `ViewerResponse` is its specification. */
    method ViewerHandler(params: map<string, string>, ext: Externals) returns (r: Result<Reply, Error>)
      requires Valid()
      ensures r == ViewerResponse(State(), viewerTemplate, params, ext)
    {
      var results := GetResultsByRequest(params);
      if results.Failure? {
        return Failure(results.error);
      }
      var statsDump := StatsDump(params, results.value, ext);
      if statsDump.Failure? {
        return Failure(statsDump.error);
      }
      var html := Utf8(Render(viewerTemplate, ext.evaluate, TemplateDict(params, statsDump.value)));
      return Success(OkReply(TextHtml, html));
    }

    /** `_tree_handler`. The method runs the lookup loop of
        `GetResultsByRequest`; `TreeResponse` is its specification. */
    method TreeHandler(params: map<string, string>, ext: Externals) returns (r: Result<Reply, Error>)
      requires Valid()
      ensures r == TreeResponse(State(), params, ext)
    {
      var node := Threshold(params, NodeThresholdKey, 0.5, ext.parseFloat);
      if node.Failure? {
        return Failure(node.error);
      }
      var edge := Threshold(params, EdgeThresholdKey, 0.1, ext.parseFloat);
      if edge.Failure? {
        return Failure(edge.error);
      }
      var results := GetResultsByRequest(params);
      if results.Failure? {
        return Failure(results.error);
      }
      if |results.value| == 0 {
        return Success(OkReply(TextPlain, NoMatchingLogBytes));
      }
      var png := ext.renderPng(results.value, node.value / 100.0, edge.value / 100.0);
      if png.None? {
        return Success(OkReply(TextPlain, DotMissingBytes));
      }
      return Success(OkReply(ImagePng, png.value));
    }

    /** `_record_handler`: run the application under the hook, then, in
        the `finally` block, commit its result whether it returned or raised. */
    method RecordHandler(pathInfo: string, run: RecordRun) returns (out: Outcome, ghost after: AppState, ghost outChunks: seq<Bytes>)
      requires Valid()
      modifies this, AppObjects(run.app)
      ensures Valid()
      ensures State() == Store.Commit(old(State()), pathInfo, run.id, ProfileResult(run.app.stats))
      ensures after == Snapshot(run.app) && outChunks == OutChunks(out)
      ensures Recorded(run, old(Snapshot(run.app)), after, out, outChunks)
      ensures out.Response? && run.app.result.body.TupleBody? && SawHtml(old(Snapshot(run.app))) ==>
                out.body.ListBody? && fresh(out.body.list)
      ensures out.Response? && run.app.result.body.ListBody? ==> out.body == run.app.result.body
    {
      // Only the frame of the commit matters here, not what the run records.
      hide Recorded, SawHtml;
      out, after, outChunks := RunApplication(run);
      Commit(pathInfo, run.id, ProfileResult(run.app.stats));
    }

    /** `__call__`: serve the viewer and the image itself (they leave the
        results and the application alone and answer with a new list), and
        profile every other request. */
    method Call(environ: Environ, run: RecordRun, ext: Externals) returns (out: Outcome)
      requires Valid()
      modifies this, AppObjects(run.app)
      ensures Valid()
      ensures Route(environ.requestMethod, environ.pathInfo) != Record ==>
                State() == old(State()) && unchanged(AppObjects(run.app))
      ensures Route(environ.requestMethod, environ.pathInfo) == Viewer ==>
                Serves(out, ViewerResponse(old(State()), viewerTemplate, environ.params, ext))
                && (out.Response? ==> fresh(Objects(out.body)))
      ensures Route(environ.requestMethod, environ.pathInfo) == Tree ==>
                Serves(out, TreeResponse(old(State()), environ.params, ext))
                && (out.Response? ==> fresh(Objects(out.body)))
      ensures Route(environ.requestMethod, environ.pathInfo) == Record ==>
                State() == Store.Commit(old(State()), environ.pathInfo, run.id, ProfileResult(run.app.stats))
                && Recorded(run, old(Snapshot(run.app)), Snapshot(run.app), out, OutChunks(out))
    {
      // Each branch hands on its handler's contract as it stands.
      hide Recorded, SawHtml, ViewerResponse, TreeResponse, WellFormed;
      var handler := Route(environ.requestMethod, environ.pathInfo);
      if handler == Viewer {
        var r := ViewerHandler(environ.params, ext);
        out := Answer(r);
      } else if handler == Tree {
        var r := TreeHandler(environ.params, ext);
        out := Answer(r);
      } else {
        ghost var after, outChunks;
        out, after, outChunks := RecordHandler(environ.pathInfo, run);
      }
    }
  }

  /** `out` is what the server gets for `r`: the exception, or the reply's
      `start_response` call and a list holding its chunks. */
  ghost predicate Serves(out: Outcome, r: Result<Reply, Error>)
    reads if out.Response? then Objects(out.body) else {}
  {
    match r
    case Failure(e) => out == Raised(None, e)
    case Success(reply) =>
      out.Response? && out.started == Some(reply.started) && out.body.ListBody?
      && out.body.list.chunks == reply.chunks
  }

  /** Hand a reply to the server as a new list. */
  method Answer(r: Result<Reply, Error>) returns (out: Outcome)
    ensures Serves(out, r)
    ensures out.Response? ==> fresh(out.body.list)
  {
    match r
    case Failure(e) =>
      out := Raised(None, e);
    case Success(reply) =>
      var list := new ChunkList(reply.chunks);
      out := Response(Some(reply.started), ListBody(list));
  }
}
