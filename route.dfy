/** The parts of an Apollo route that route prefixing touches: the HTTP
    method, the URI pattern and the handler, which is carried unchanged. */
module Routes {

  datatype Route<H> = Route(verb: string, uri: string, handler: H)

  /** A copy of r whose URI is prefix followed by r's URI; the method and the
      handler are those of r. */
  function WithPrefix<H>(r: Route<H>, prefix: string): (p: Route<H>)
    ensures p.verb == r.verb && p.handler == r.handler
    ensures |p.uri| == |prefix| + |r.uri|
    ensures p.uri[..|prefix|] == prefix && p.uri[|prefix|..] == r.uri
  {
    r.(uri := prefix + r.uri)
  }

  /** The URIs of a sequence of routes, in order. */
  function Uris<H>(rs: seq<Route<H>>): seq<string> {
    seq(|rs|, k requires 0 <= k < |rs| => rs[k].uri)
  }
}
