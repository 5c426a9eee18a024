/**
 * The per-request interception logic of the renderer middleware: the negotiation gate,
 * request-header sanitising, and the finish handler that restores the request headers,
 * applies the size limit, filters the response headers and dispatches to the renderer.
 */
module Middleware {
  import opened Wrappers
  import opened HeaderMaps
  import opened Negotiation
  import opened Renderers

  /** The middleware's options, fixed when it is built. */
  datatype Options = Options(
    alternativeMediaTypes: Option<seq<string>>,
    graphSizeLimit: Option<int>,   // None: the option is absent
    renderer: Renderer)

  /** A failure value passed on to the `next` continuation. */
  type Error = string

  /** Which renderer operation dispatch called. */
  datatype Branch = RenderBranch | ErrorBranch

  /** The externally visible steps, in the order they happen. */
  datatype Event =
    | Next(error: Option<Error>)   // the chain's `next`, with or without an error
    | Unhijack                     // the interception released
    | Dispatched(branch: Branch)   // one renderer operation called

  /** Where a request stands in its passage through the middleware. */
  datatype Phase =
    | Received       // not yet seen by the middleware
    | PassedThrough  // negotiation chose another type; nothing intercepted
    | Intercepted    // headers sanitised, hijack registered, downstream handler running
    | Buffering      // hijack attached, body being piped into the buffer
    | Failed         // hijack reported an error
    | Released       // interception released by the hijacked request's `next`
    | Finished       // body buffered and handed to the renderer

  // ---------------------------------------------------------------------------------------
  // Specification functions

  /** The request headers the downstream handler sees once an intercepted request is sanitised. */
  function Sanitized(h: Headers, accept: string): (r: Headers)
    ensures forall k :: k in r ==> k in RequestHeaderWhitelist || k == "accept"
    ensures forall k :: k in h && k in RequestHeaderWhitelist ==> k in r && r[k] == h[k]
    ensures forall k :: k in RequestHeaderWhitelist && k !in h ==> k !in r
    ensures "accept" in r && r["accept"] == accept
  {
    Keep(h, RequestHeaderWhitelist)["accept" := accept]
  }

  /** True iff the size rule fires: the limit is set and non-zero, and the graph is longer. */
  predicate Oversized(limit: Option<int>, graph: string)
  {
    limit.Some? && limit.value != 0 && |graph| > limit.value
  }

  /** The status after the size rule: 413 when it fires, otherwise the handler's status. */
  function SizeChecked(limit: Option<int>, graph: string, status: int): (s: int)
    ensures limit.None? || limit == Some(0) ==> s == status
    ensures limit.Some? && |graph| <= limit.value ==> s == status
    ensures limit.Some? && limit.value != 0 && |graph| > limit.value ==> s == 413
  {
    if Oversized(limit, graph) then 413 else status
  }

  /**
   * The value the buffer's `getContentsAsString` yields for the buffered text: `false` when
   * nothing was written, the text otherwise.
   */
  function BufferContents(text: string): (v: GraphValue)
    ensures v.False? <==> text == ""
    ensures !v.Undefined?
    ensures JsString(v) == if text == "" then "false" else text
  {
    if text == "" then False else Text(text)
  }

  /** The response headers the renderer starts from. */
  function FinalResponseHeaders(handler: Option<Headers>): (r: Headers)
    ensures "content-type" in r && r["content-type"] == "text/html"
    ensures forall k :: k in r && k != "content-type" ==>
              handler.Some? && k in handler.value && k in ResponseHeaderWhitelist && r[k] == handler.value[k]
    ensures handler.Some? ==> forall k :: k in handler.value && k in ResponseHeaderWhitelist ==>
              k in r && r[k] == handler.value[k]
    ensures handler.None? ==> r == map["content-type" := "text/html"]
  {
    Keep(handler.GetOr(map[]), ResponseHeaderWhitelist)["content-type" := "text/html"]
  }

  /** Everything the finish handler decides. */
  datatype Outcome = Outcome(
    requestHeaders: Headers,
    status: int,
    responseHeaders: Headers,
    graph: GraphValue,
    branch: Branch,
    body: string)

  /**
   * The result of finishing an intercepted request whose headers were snapshotted as `saved`,
   * whose handler left `status` and `handler` headers, and whose buffered body is `graph`.
   */
  function FinishOutcome(opts: Options, saved: Headers, status: int, handler: Option<Headers>, graph: string): (o: Outcome)
    ensures o.requestHeaders == saved
    ensures o.status == SizeChecked(opts.graphSizeLimit, graph, status)
    ensures o.graph == BufferContents(graph)
    ensures o.responseHeaders == FinalResponseHeaders(handler)
    ensures o.branch == RenderBranch <==> o.status == 200
    ensures Oversized(opts.graphSizeLimit, graph) ==> o.status == 413 && o.branch == ErrorBranch
    ensures var v := View(saved, o.status, o.responseHeaders, BufferContents(graph));
            o.body == (if o.branch == RenderBranch then opts.renderer.render(v) else opts.renderer.error(v))
  {
    var s := SizeChecked(opts.graphSizeLimit, graph, status);
    var hs := FinalResponseHeaders(handler);
    var v := View(saved, s, hs, BufferContents(graph));
    if s == 200 then Outcome(saved, s, hs, v.graph, RenderBranch, opts.renderer.render(v))
    else Outcome(saved, s, hs, v.graph, ErrorBranch, opts.renderer.error(v))
  }

  // ---------------------------------------------------------------------------------------
  // The request/response pair as the middleware changes it

  class Exchange {
    const options: Options             // the options the middleware was built with
    var requestHeaders: Headers        // req.headers
    var status: int                    // res.statusCode
    var responseHeaders: Option<Headers>  // res._headers, None until a header is set
    var graph: GraphValue              // res.locals.graph
    var body: Option<string>           // what the renderer wrote with res.end
    var saved: Option<Headers>         // the snapshot of the request headers
    var phase: Phase
    var events: seq<Event>

    /** The snapshot exists exactly when the request was intercepted. */
    ghost predicate Valid()
      reads this
    {
      (saved.None? <==> phase == Received || phase == PassedThrough)
    }

    /**
     * A fresh request reaching a middleware built with `opts`: Node's default status 200, no
     * response headers, nothing written.
     */
    constructor (opts: Options, headers: Headers)
      ensures Valid() && phase == Received && options == opts
      ensures requestHeaders == headers && status == 200 && responseHeaders == None
      ensures graph == Undefined && body == None && saved == None && events == []
    {
      options := opts;
      requestHeaders := headers;
      status := 200;
      responseHeaders := None;
      graph := Undefined;
      body := None;
      saved := None;
      phase := Received;
      events := [];
    }

    // Operations of the response and request objects, used by the handler and by the middleware.

    /** res.status(code) */
    method SetStatus(code: int)
      modifies this`status
      ensures status == code
    {
      status := code;
    }

    /** res.setHeader(name, value) */
    method SetHeader(name: string, value: string)
      modifies this`responseHeaders
      ensures responseHeaders == Some(old(responseHeaders).GetOr(map[])[name := value])
    {
      responseHeaders := Some(responseHeaders.GetOr(map[])[name := value]);
    }

    /** res.removeHeader(name): nothing happens when no header was ever set. */
    method RemoveHeader(name: string)
      modifies this`responseHeaders
      ensures old(responseHeaders).None? ==> responseHeaders == None
      ensures old(responseHeaders).Some? ==> responseHeaders == Some(old(responseHeaders).value - {name})
    {
      if responseHeaders.Some? {
        responseHeaders := Some(responseHeaders.value - {name});
      }
    }

    /** req.headers[name] = value, by the downstream handler */
    method SetRequestHeader(name: string, value: string)
      modifies this`requestHeaders
      ensures requestHeaders == old(requestHeaders)[name := value]
    {
      requestHeaders := requestHeaders[name := value];
    }

    /** delete req.headers[name], by the downstream handler or the sanitiser */
    method DeleteRequestHeader(name: string)
      modifies this`requestHeaders
      ensures requestHeaders == old(requestHeaders) - {name}
    {
      requestHeaders := requestHeaders - {name};
    }

    // The middleware

    /**
     * The middleware function for one request: pass it through unless negotiation picks
     * "html"; otherwise snapshot and sanitise its headers and register the hijack. Either way
     * the chain continues with `next()`.
     */
    method Handle(negotiate: Negotiator)
      requires Valid() && phase == Received
      modifies this
      ensures Valid()
      ensures status == old(status) && responseHeaders == old(responseHeaders)
      ensures graph == old(graph) && body == old(body)
      ensures events == old(events) + [Next(None)]
      ensures !Intercepts(negotiate, options.alternativeMediaTypes, old(requestHeaders)) ==>
                phase == PassedThrough && requestHeaders == old(requestHeaders) && saved == None
      ensures Intercepts(negotiate, options.alternativeMediaTypes, old(requestHeaders)) ==>
                phase == Intercepted && saved == Some(old(requestHeaders))
                && requestHeaders == Sanitized(old(requestHeaders), options.renderer.accept)
    {
      var mediaTypes := Offered(options.alternativeMediaTypes);
      if negotiate(AcceptHeader(requestHeaders), mediaTypes) != Some(Html) {
        events := events + [Next(None)];
        phase := PassedThrough;
        return;
      }
      ghost var original := requestHeaders;
      saved := Some(requestHeaders);
      var doomed := Outside(requestHeaders, RequestHeaderWhitelist);
      while doomed != {}
        invariant doomed <= original.Keys
        invariant requestHeaders == map k | k in original && (k in RequestHeaderWhitelist || k in doomed) :: original[k]
        modifies this`requestHeaders
        decreases doomed
      {
        var name :| name in doomed;
        DeleteRequestHeader(name);
        doomed := doomed - {name};
      }
      assert requestHeaders == Keep(original, RequestHeaderWhitelist);
      SetRequestHeader("accept", options.renderer.accept);
      phase := Intercepted;
      events := events + [Next(None)];
    }

    /**
     * The hijack callback. On an error the interception is released and the error goes to
     * `next`; otherwise the response body is piped into the buffer.
     */
    method Hijacked(err: Option<Error>)
      requires Valid() && phase == Intercepted
      modifies this`phase, this`events
      ensures Valid()
      ensures err.Some? ==> phase == Failed && events == old(events) + [Unhijack, Next(err)]
      ensures err.None? ==> phase == Buffering && events == old(events)
    {
      if err.Some? {
        events := events + [Unhijack, Next(err)];
        phase := Failed;
      } else {
        phase := Buffering;
      }
    }

    /**
     * The `next` installed on the hijacked request: release the interception, then continue.
     * It stays installed, so the handler, the renderer after the finish handler, or a repeated
     * call all run it; a finished request stays finished.
     */
    method ForwardNext(err: Option<Error>)
      requires Valid() && (phase == Buffering || phase == Released || phase == Finished)
      modifies this`phase, this`events
      ensures Valid()
      ensures phase == if old(phase) == Finished then Finished else Released
      ensures events == old(events) + [Unhijack, Next(err)]
    {
      events := events + [Unhijack];
      if phase != Finished {
        phase := Released;
      }
      events := events + [Next(err)];
    }

    /** Remove every response header the handler set whose name is not whitelisted. */
    method RemoveUnlistedHeaders()
      modifies this`responseHeaders
      ensures old(responseHeaders).None? ==> responseHeaders == None
      ensures old(responseHeaders).Some? ==> responseHeaders == Some(Keep(old(responseHeaders).value, ResponseHeaderWhitelist))
    {
      if responseHeaders.Some? {
        ghost var handler := responseHeaders.value;
        var doomed := Outside(responseHeaders.value, ResponseHeaderWhitelist);
        while doomed != {}
          invariant doomed <= handler.Keys
          invariant responseHeaders.Some?
          invariant responseHeaders.value == map k | k in handler && (k in ResponseHeaderWhitelist || k in doomed) :: handler[k]
          decreases doomed
        {
          var name :| name in doomed;
          RemoveHeader(name);
          doomed := doomed - {name};
        }
        assert responseHeaders.value == Keep(handler, ResponseHeaderWhitelist);
      }
    }

    /** Call the renderer's `render` when the status is 200 and its `error` otherwise, once. */
    method Dispatch(renderer: Renderer)
      requires responseHeaders.Some?
      modifies this`body, this`events
      ensures var v := View(requestHeaders, status, responseHeaders.value, graph);
              body == Some(if status == 200 then renderer.render(v) else renderer.error(v))
      ensures events == old(events) + [Dispatched(if status == 200 then RenderBranch else ErrorBranch)]
    {
      var view := View(requestHeaders, status, responseHeaders.value, graph);
      if status == 200 {
        body := Some(renderer.render(view));
        events := events + [Dispatched(RenderBranch)];
      } else {
        body := Some(renderer.error(view));
        events := events + [Dispatched(ErrorBranch)];
      }
    }

    /**
     * The buffer's finish handler, given the body as a string: restore the request headers,
     * apply the size limit, expose the graph, filter the response headers, set the HTML
     * content type and call exactly one renderer operation.
     */
    method Finish(graphString: string)
      requires Valid() && (phase == Buffering || phase == Released)
      modifies this
      ensures Valid() && phase == Finished && saved == old(saved)
      ensures requestHeaders == old(saved).value
      ensures status == SizeChecked(options.graphSizeLimit, graphString, old(status))
      ensures graph == BufferContents(graphString)
      ensures responseHeaders == Some(FinalResponseHeaders(old(responseHeaders)))
      ensures var v := View(requestHeaders, status, responseHeaders.value, graph);
              body == Some(if status == 200 then options.renderer.render(v) else options.renderer.error(v))
      ensures events == old(events) + [Dispatched(if status == 200 then RenderBranch else ErrorBranch)]
      ensures FinishOutcome(options, old(saved).value, old(status), old(responseHeaders), graphString)
              == Outcome(requestHeaders, status, responseHeaders.value, graph,
                         if status == 200 then RenderBranch else ErrorBranch, body.value)
    {
      requestHeaders := saved.value;

      var contents := BufferContents(graphString);
      if Oversized(options.graphSizeLimit, graphString) {
        SetStatus(413);
      } else {
        graph := contents;
      }
      graph := contents;

      RemoveUnlistedHeaders();
      SetHeader("content-type", "text/html");
      Dispatch(options.renderer);
      phase := Finished;
    }
  }
}
