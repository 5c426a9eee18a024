/**
 * The middleware driven through whole requests, as the repository's tests drive it, with the
 * dummy renderer. Each negotiator fact a test relies on is a precondition, since the
 * negotiation algorithm itself is not modelled.
 */
module Scenarios {
  import opened Wrappers
  import opened HeaderMaps
  import opened Negotiation
  import opened Renderers
  import opened Middleware
  import opened Decimal

  function DummyOptions(alternatives: Option<seq<string>>, limit: Option<int>): Options
  {
    Options(alternatives, limit, DummyRenderer())
  }

  const Json: string := "{\"key\":\"value\"}"

  /**
   * A request that negotiates to anything but "html" passes through: its headers, the response
   * and the renderer are untouched, and the chain continues with `next()`.
   */
  method PassThrough(alternatives: Option<seq<string>>, headers: Headers, negotiate: Negotiator)
    returns (seen: Headers, status: int, body: Option<string>, events: seq<Event>, intercepted: bool)
    requires negotiate(AcceptHeader(headers), Offered(alternatives)) != Some(Html)
    ensures seen == headers && status == 200 && body == None
    ensures events == [Next(None)] && !intercepted
  {
    var ex := new Exchange(DummyOptions(alternatives, None), headers);
    ex.Handle(negotiate);
    seen, status, body, events := ex.requestHeaders, ex.status, ex.body, ex.events;
    intercepted := ex.phase != PassedThrough;
  }

  /**
   * `accept: application/json` with no alternatives configured, and the q-value case
   * `application/json;q=0.9,text/html;q=0.8` with `application/json` configured: both pass through.
   */
  method JsonPassesThrough(negotiate: Negotiator)
    returns (plainSeen: Headers, weightedSeen: Headers, plainEvents: seq<Event>, weightedEvents: seq<Event>)
    requires negotiate(Some("application/json"), ["html"]) == None
    requires negotiate(Some("application/json;q=0.9,text/html;q=0.8"), ["application/json", "html"]) == Some("application/json")
    ensures plainSeen == map["accept" := "application/json"] && plainEvents == [Next(None)]
    ensures weightedSeen == map["accept" := "application/json;q=0.9,text/html;q=0.8"] && weightedEvents == [Next(None)]
  {
    var plain := map["accept" := "application/json"];
    assert AcceptHeader(plain) == Some("application/json");
    assert Offered(None) == ["html"];
    var weighted := map["accept" := "application/json;q=0.9,text/html;q=0.8"];
    assert AcceptHeader(weighted) == Some("application/json;q=0.9,text/html;q=0.8");
    assert Offered(Some(["application/json"])) == ["application/json", "html"];
    var status, body, intercepted;
    plainSeen, status, body, plainEvents, intercepted := PassThrough(None, plain, negotiate);
    weightedSeen, status, body, weightedEvents, intercepted := PassThrough(Some(["application/json"]), weighted, negotiate);
  }

  /** The request headers of the rendering test, as the sanitiser leaves them. */
  lemma SanitizedTestRequest()
    ensures Sanitized(TestRequest, DummyAccept) == map["host" := "127.0.0.1", "accept" := "application/ld+json"]
  {
  }

  /** The headers `res.json` sets, as the response filter leaves them. */
  lemma FilteredJsonHeaders()
    ensures FinalResponseHeaders(Some(JsonHeaders)) == map["content-type" := "text/html"]
  {
  }

  const TestRequest: Headers := map["host" := "127.0.0.1", "accept" := "text/html", "user-agent" := "node-superagent"]
  const JsonHeaders: Headers := map["content-type" := "application/json; charset=utf-8", "content-length" := "15",
                                    "etag" := "W/\"f-pEOeSL5Gy2mcQaE+0b8aqsEOBvs\""]

  /**
   * `accept: text/html`: while the request is intercepted the handler sees only the whitelisted
   * headers and the renderer's `accept`.
   */
  method HandlerView(negotiate: Negotiator) returns (handlerSaw: Headers)
    requires negotiate(Some("text/html"), ["html"]) == Some("html")
    ensures handlerSaw == map["host" := "127.0.0.1", "accept" := "application/ld+json"]
  {
    var ex := new Exchange(DummyOptions(None, None), TestRequest);
    assert AcceptHeader(TestRequest) == Some("text/html");
    assert Intercepts(negotiate, None, TestRequest);
    ex.Handle(negotiate);
    SanitizedTestRequest();
    handlerSaw := ex.requestHeaders;
  }

  /** Headers like those Express's `res.json({key: 'value'})` sets, on a response that had none. */
  method RespondJson(ex: Exchange)
    requires ex.responseHeaders == None
    modifies ex`responseHeaders
    ensures ex.responseHeaders == Some(JsonHeaders)
  {
    ex.SetHeader("content-type", "application/json; charset=utf-8");
    ex.SetHeader("content-length", "15");
    ex.SetHeader("etag", "W/\"f-pEOeSL5Gy2mcQaE+0b8aqsEOBvs\"");
  }

  /**
   * `accept: text/html`, and the handler answers `res.json({key: 'value'})`: the client gets
   * the graph wrapped by the dummy renderer, as `text/html` with the handler's JSON headers
   * gone, and the request leaves with the headers it came with.
   */
  method RenderGraph(negotiate: Negotiator)
    returns (body: Option<string>, responseHeaders: Option<Headers>, finalRequest: Headers)
    requires negotiate(Some("text/html"), ["html"]) == Some("html")
    ensures body == Some(Prefix + Json + Suffix)
    ensures responseHeaders == Some(map["content-type" := "text/html"])
    ensures finalRequest == TestRequest
  {
    var ex := new Exchange(DummyOptions(None, None), TestRequest);
    assert AcceptHeader(TestRequest) == Some("text/html");
    assert Intercepts(negotiate, None, TestRequest);
    ex.Handle(negotiate);
    ex.Hijacked(None);
    RespondJson(ex);
    FilteredJsonHeaders();
    ghost var saved := ex.saved.value;
    assert ex.status == 200 && ex.responseHeaders == Some(JsonHeaders);
    ex.Finish(Json);
    ghost var o := FinishOutcome(DummyOptions(None, None), saved, 200, Some(JsonHeaders), Json);
    assert ex.body == Some(o.body);
    RenderGraphOutcome(saved);
    body, responseHeaders, finalRequest := ex.body, ex.responseHeaders, ex.requestHeaders;
  }

  /**
   * The same request when the handler answers with a non-200 status: the error operation runs
   * and the page carries only the status code.
   */
  method ErrorStatus(negotiate: Negotiator)
    returns (body: Option<string>, status: int, events: seq<Event>)
    requires negotiate(Some("text/html"), ["html"]) == Some("html")
    ensures status == 404
    ensures body == Some(Prefix + "{\"status\": 404}" + Suffix)
    ensures events == [Next(None), Dispatched(ErrorBranch)]
  {
    var ex := new Exchange(DummyOptions(None, None), map["accept" := "text/html"]);
    assert Intercepts(negotiate, None, ex.requestHeaders);
    ex.Handle(negotiate);
    ex.Hijacked(None);
    ex.SetStatus(404);
    ghost var saved, handler := ex.saved.value, ex.responseHeaders;
    ex.Finish(Json);
    ErrorStatusOutcome(saved, handler);
    body, status, events := ex.body, ex.status, ex.events;
  }

  /**
   * A body longer than the limit turns a 200 into 413 and takes the error path; the graph is
   * still exposed to the renderer in full.
   */
  method OverLimit(negotiate: Negotiator)
    returns (status: int, graph: GraphValue, body: Option<string>)
    requires negotiate(Some("text/html"), ["html"]) == Some("html")
    ensures status == 413 && graph == Text(Json)
    ensures body == Some(Prefix + "{\"status\": 413}" + Suffix)
  {
    assert |Json| == 15;
    var ex := new Exchange(DummyOptions(None, Some(14)), map["accept" := "text/html"]);
    assert Intercepts(negotiate, None, ex.requestHeaders);
    ex.Handle(negotiate);
    ex.Hijacked(None);
    ghost var saved, handler := ex.saved.value, ex.responseHeaders;
    ex.Finish(Json);
    DummyOversizedPage(Some(14), saved, 200, handler, Json);
    status, graph, body := ex.status, ex.graph, ex.body;
  }

  /** A body exactly as long as the limit is rendered. */
  method AtLimit(negotiate: Negotiator)
    returns (status: int, body: Option<string>)
    requires negotiate(Some("text/html"), ["html"]) == Some("html")
    ensures status == 200 && body == Some(Prefix + Json + Suffix)
  {
    assert |Json| == 15;
    var ex := new Exchange(DummyOptions(None, Some(15)), map["accept" := "text/html"]);
    assert Intercepts(negotiate, None, ex.requestHeaders);
    ex.Handle(negotiate);
    ex.Hijacked(None);
    ghost var saved, handler := ex.saved.value, ex.responseHeaders;
    ex.Finish(Json);
    DummyFinishedPage(Some(15), saved, 200, handler, Json);
    status, body := ex.status, ex.body;
  }

  /**
   * Whatever the handler does to the request headers of an intercepted request, the headers
   * after the finish handler are exactly those the request arrived with, and the trace is the
   * one `next()` followed by exactly one renderer call.
   */
  method RestoreRequestHeaders(opts: Options, headers: Headers, negotiate: Negotiator,
                               added: string, removed: string, graph: string)
    returns (after: Headers, events: seq<Event>)
    requires Intercepts(negotiate, opts.alternativeMediaTypes, headers)
    ensures after == headers
    ensures |events| == 2 && events[0] == Next(None) && events[1].Dispatched?
  {
    var ex := new Exchange(opts, headers);
    ex.Handle(negotiate);
    ex.Hijacked(None);
    ex.SetRequestHeader(added, "set by the handler");
    ex.DeleteRequestHeader(removed);
    ex.Finish(graph);
    after := ex.requestHeaders;
    events := ex.events;
  }

  /**
   * The hijacked request's `next` stays installed: when the handler calls it while the body is
   * buffering, and the renderer calls it again after the finish handler, each call releases
   * the interception and passes its error on, and the finish handler still runs in between.
   */
  method NextAroundFinish(opts: Options, headers: Headers, negotiate: Negotiator, early: Error, late: Error, graph: string)
    returns (events: seq<Event>, restored: Headers)
    requires Intercepts(negotiate, opts.alternativeMediaTypes, headers)
    ensures |events| == 6 && events[..3] == [Next(None), Unhijack, Next(Some(early))]
    ensures events[3].Dispatched? && events[4..] == [Unhijack, Next(Some(late))]
    ensures restored == headers
  {
    var ex := new Exchange(opts, headers);
    ex.Handle(negotiate);
    ex.Hijacked(None);
    ex.ForwardNext(Some(early));
    ex.Finish(graph);
    ex.ForwardNext(Some(late));
    events, restored := ex.events, ex.requestHeaders;
  }

  /**
   * With the dummy renderer, finishing writes the buffered graph verbatim between the fixed
   * prefix and suffix when the final status is 200, and otherwise a page naming only that status.
   */
  lemma DummyFinishedPage(limit: Option<int>, saved: Headers, status: int, handler: Option<Headers>, graph: string)
    ensures var o := FinishOutcome(DummyOptions(None, limit), saved, status, handler, graph);
            o.body == if o.status == 200 then Prefix + (if graph == "" then "false" else graph) + Suffix
                      else Prefix + StatusOpen + IntToDecimal(o.status) + StatusClose + Suffix
  {
  }

  /**
   * An intercepted request whose handler writes nothing: the buffer yields `false`, which the
   * dummy renderer writes into its page as the text "false".
   */
  method EmptyBody(negotiate: Negotiator) returns (graph: GraphValue, body: Option<string>)
    requires negotiate(Some("text/html"), ["html"]) == Some("html")
    ensures graph == False
    ensures body == Some(Prefix + "false" + Suffix)
  {
    var ex := new Exchange(DummyOptions(None, None), map["accept" := "text/html"]);
    assert Intercepts(negotiate, None, ex.requestHeaders);
    ex.Handle(negotiate);
    ex.Hijacked(None);
    ghost var saved, handler := ex.saved.value, ex.responseHeaders;
    ex.Finish("");
    DummyFinishedPage(None, saved, 200, handler, "");
    graph, body := ex.graph, ex.body;
  }

  /** What finishing the rendering test decides. */
  lemma RenderGraphOutcome(saved: Headers)
    ensures var o := FinishOutcome(DummyOptions(None, None), saved, 200, Some(JsonHeaders), Json);
            o.requestHeaders == saved && o.body == Prefix + Json + Suffix
            && o.responseHeaders == map["content-type" := "text/html"]
  {
    DummyFinishedPage(None, saved, 200, Some(JsonHeaders), Json);
    FilteredJsonHeaders();
  }

  /** What finishing the 404 request decides. */
  lemma ErrorStatusOutcome(saved: Headers, handler: Option<Headers>)
    ensures var o := FinishOutcome(DummyOptions(None, None), saved, 404, handler, Json);
            o.status == 404 && o.body == Prefix + "{\"status\": 404}" + Suffix
  {
    DummyFinishedPage(None, saved, 404, handler, Json);
    NotFoundPage();
  }

  /** The dummy error page for 404. */
  lemma NotFoundPage()
    ensures Prefix + StatusOpen + IntToDecimal(404) + StatusClose + Suffix == Prefix + "{\"status\": 404}" + Suffix
  {
    StatusCodeNumeral(404);
    assert IntToDecimal(404) == "404";
  }

  /** With the dummy renderer, an oversized graph yields the error page for 413. */
  lemma DummyOversizedPage(limit: Option<int>, saved: Headers, status: int, handler: Option<Headers>, graph: string)
    requires Oversized(limit, graph)
    ensures var o := FinishOutcome(DummyOptions(None, limit), saved, status, handler, graph);
            o.branch == ErrorBranch && o.body == Prefix + "{\"status\": 413}" + Suffix
  {
    var o := FinishOutcome(DummyOptions(None, limit), saved, status, handler, graph);
    assert o.status == 413;
    assert o.body == DummyError(View(saved, 413, o.responseHeaders, o.graph));
    StatusCodeNumeral(413);
    assert IntToDecimal(413) == "413";
  }
}
