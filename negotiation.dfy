/** The content-negotiation gate of the middleware. */
module Negotiation {
  import opened Wrappers
  import opened HeaderMaps

  /** The media type that selects interception. */
  const Html: string := "html"

  /**
   * The negotiation oracle: given the request's `accept` header (absent or not) and the offered
   * media types, the best match among them, or `None` when nothing matches.
   */
  type Negotiator = (Option<string>, seq<string>) -> Option<string>

  /** What a conforming negotiator promises: any answer is one of the offered types. */
  ghost predicate SoundNegotiator(negotiate: Negotiator)
  {
    forall accept, offered :: negotiate(accept, offered).Some? ==> negotiate(accept, offered).value in offered
  }

  /** The media types offered to the negotiator: the configured alternatives, then "html". */
  function Offered(alternatives: Option<seq<string>>): (r: seq<string>)
    ensures |r| >= 1 && r[|r| - 1] == Html
    ensures r[..|r| - 1] == alternatives.GetOr([])
    ensures Html in r
    ensures alternatives.None? ==> r == [Html]
  {
    alternatives.GetOr([]) + [Html]
  }

  /** The request's `accept` header, as the negotiator reads it. */
  function AcceptHeader(h: Headers): Option<string>
  {
    if "accept" in h then Some(h["accept"]) else None
  }

  /** True iff the request is intercepted: the negotiated type is exactly "html". */
  predicate Intercepts(negotiate: Negotiator, alternatives: Option<seq<string>>, h: Headers)
  {
    negotiate(AcceptHeader(h), Offered(alternatives)) == Some(Html)
  }

  /**
   * With a conforming negotiator, a request that is not intercepted either matched nothing or
   * matched one of the configured alternatives (never some type outside the offer).
   */
  lemma PassThroughChoice(negotiate: Negotiator, alternatives: Option<seq<string>>, h: Headers)
    requires SoundNegotiator(negotiate)
    requires !Intercepts(negotiate, alternatives, h)
    ensures var answer := negotiate(AcceptHeader(h), Offered(alternatives));
            answer.None? || (answer.value != Html && answer.value in alternatives.GetOr([]))
  {
  }
}
