/** The Route value of routing.go: methods, a path and a composed handler.
    A Route is a value here. In Go its methods slice is shared with whoever
    passed it in and with every caller of `Methods()`, so a write through
    such a slice changes the route; the model does not capture that. */
module RouteValue {
  import opened Handlers

  datatype Route = Route(methods: seq<string>, path: string, handlerFunc: HandlerFunc)
  {
    /** The composed handler, as stored. */
    function Handler(): (h: HandlerFunc)
      ensures this == Route(methods, path, h)
    {
      handlerFunc
    }

    /** The path, as stored. */
    function Path(): (p: string)
      ensures this == Route(methods, p, handlerFunc)
    {
      path
    }

    /** The HTTP methods, as stored and in order. */
    function Methods(): (ms: seq<string>)
      ensures this == Route(ms, path, handlerFunc)
    {
      methods
    }
  }

  /** The accessors give back exactly what the route was made from. */
  lemma AccessorsReturnFields(methods: seq<string>, path: string, h: HandlerFunc)
    ensures Route(methods, path, h).Methods() == methods
    ensures Route(methods, path, h).Path() == path
    ensures Route(methods, path, h).Handler() == h
  {
  }

  /** A route is determined by what its accessors return. */
  lemma AccessorsDetermineRoute(r: Route, s: Route)
    requires r.Methods() == s.Methods() && r.Path() == s.Path() && r.Handler() == s.Handler()
    ensures r == s
  {
  }
}
