/**
 * The renderer capability the interceptor hands the buffered body to, and the concrete
 * dummy renderer of the repository's tests.
 */
module Renderers {
  import opened Wrappers
  import opened HeaderMaps
  import opened Decimal

  /**
   * The values `res.locals.graph` takes: never assigned, the `false` that reading an empty
   * buffer as a string yields, or the buffered text.
   */
  datatype GraphValue = Undefined | False | Text(text: string)

  /** What a renderer can observe of the request and the response when it is called. */
  datatype View = View(
    requestHeaders: Headers,
    status: int,
    responseHeaders: Headers,
    graph: GraphValue)  // res.locals.graph

  /**
   * A renderer: the media type it wants the downstream handler to answer with, and the
   * bodies its success and error operations write to the response.
   */
  datatype Renderer = Renderer(accept: string, render: View -> string, error: View -> string)

  /** The fixed opening and closing of every page the dummy renderer writes. */
  const Prefix: string := "<html><head><script type=\"application/json\">"
  const Suffix: string := "</script></head></html>"

  /** How JavaScript's `+` on a string writes a graph value. */
  function JsString(v: GraphValue): string
  {
    match v
    case Text(s) => s
    case False => "false"
    case Undefined => "undefined"
  }

  /** The dummy renderer's `accept` field, set once by its constructor. */
  const DummyAccept: string := "application/ld+json"

  /** The dummy `render`: the graph, verbatim, inside a JSON script element. */
  function DummyRender(v: View): (page: string)
    ensures |page| == |Prefix| + |JsString(v.graph)| + |Suffix|
    ensures page[..|Prefix|] == Prefix
    ensures page[|Prefix|..|page| - |Suffix|] == JsString(v.graph)
    ensures page[|page| - |Suffix|..] == Suffix
  {
    Prefix + JsString(v.graph) + Suffix
  }

  const StatusOpen: string := "{\"status\": "
  const StatusClose: string := "}"

  /** The dummy `error`: a JSON object carrying only the status code, inside the same element. */
  function DummyError(v: View): (page: string)
    ensures |page| == |Prefix| + |StatusOpen| + |IntToDecimal(v.status)| + |StatusClose| + |Suffix|
    ensures page[..|Prefix|] == Prefix
    ensures page[|page| - |Suffix|..] == Suffix
  {
    Prefix + StatusOpen + IntToDecimal(v.status) + StatusClose + Suffix
  }

  /** The dummy renderer as a capability value. */
  function DummyRenderer(): (r: Renderer)
    ensures r.accept == "application/ld+json"
  {
    Renderer(DummyAccept, v => DummyRender(v), v => DummyError(v))
  }

  /** The error page depends on the status code alone: never on the graph or the headers. */
  lemma DummyErrorOnlyStatus(v: View, w: View)
    requires v.status == w.status
    ensures DummyError(v) == DummyError(w)
  {
  }

  /** Text between a fixed prefix and a fixed suffix is determined by the whole. */
  lemma CancelAround<T>(h: seq<T>, a: seq<T>, b: seq<T>, t1: seq<T>, t2: seq<T>)
    requires h + a + t1 + t2 == h + b + t1 + t2
    ensures a == b
  {
    var x := h + a + t1 + t2;
    assert |a| == |b|;
    assert x[|h|..|h| + |a|] == a;
    assert (h + b + t1 + t2)[|h|..|h| + |b|] == b;
  }

  /** The error page determines the status code it reports. */
  lemma DummyErrorInjective(v: View, w: View)
    requires DummyError(v) == DummyError(w)
    ensures v.status == w.status
  {
    CancelAround(Prefix + StatusOpen, IntToDecimal(v.status), IntToDecimal(w.status), StatusClose, Suffix);
    IntToDecimalInjective(v.status, w.status);
  }
}
