/** Header maps and the two fixed header whitelists of the interceptor. */
module HeaderMaps {

  /** A header mapping, name to value. Names are compared by exact string equality. */
  type Headers = map<string, string>

  /** Request headers that survive sanitising, in the order the source lists them. */
  const RequestHeaderWhitelist: seq<string> := ["host", "x-forwarded-host", "x-forwarded-proto"]

  /** Response headers of the downstream handler that survive filtering. */
  const ResponseHeaderWhitelist: seq<string> := ["link", "set-cookie"]

  /** The entries of `h` whose names are listed in `allowed`, values unchanged. */
  function Keep(h: Headers, allowed: seq<string>): (r: Headers)
    ensures forall k :: k in r <==> k in h && k in allowed
    ensures forall k :: k in r ==> r[k] == h[k]
  {
    map k | k in h && k in allowed :: h[k]
  }

  /** The names of `h` that are not listed in `allowed`: lodash's `difference` of the keys. */
  function Outside(h: Headers, allowed: seq<string>): (r: set<string>)
    ensures forall k :: k in r <==> k in h && k !in allowed
  {
    set k | k in h && k !in allowed
  }
}
