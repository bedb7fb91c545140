/** The test fixtures of common_test.go, which give handlers an observable
    behaviour, and the test tables of builder_test.go and
    routingDefinition_test.go stated as lemmas.

    A request is reduced to what the fixtures look at: its HTTP method, its
    basic-auth credentials (if any) and the string stack kept in its
    context (if any). */
module Fixtures {
  import opened Handlers
  import opened RouteValue
  import opened Builders
  import opened Definitions

  datatype Option<T> = None | Some(value: T)

  datatype Credentials = Credentials(user: string, password: string)

  datatype Request = Request(verb: string, credentials: Option<Credentials>, stack: Option<seq<string>>)

  /** What a handler leaves in the response recorder. */
  datatype Response =
    | Status(code: int)                      // a status line and no body of interest
    | Encoded(stack: seq<string>)            // status 200 and the JSON-encoded stack
    | NoReply                                // returned without writing anything
    | NilCall                                // invoked the nil handler func
    | Unmodelled(name: string, req: Request) // control reached a handler or middleware known only by name

  /** What a middleware does with a request: call the inner handler once with
      `req`, or answer itself without calling it. */
  datatype Outcome = Next(req: Request) | Reply(resp: Response)

  /** The request `testResponse` sends: GET, no credentials, no stack. */
  function TestRequest(): (req: Request)
    ensures req.verb == "GET" && req.credentials.None? && req.stack.None?
    ensures StackOf(req) == []
  {
    Request("GET", None, None)
  }

  /** The stack a request carries, empty if none. */
  function StackOf(req: Request): seq<string>
  {
    match req.stack
    case None => []
    case Some(s) => s
  }

  /** `middlewareWithCtxValue(val)`: calls the inner handler once, with `val`
      pushed on the context stack (a new stack `[val]` if there was none);
      nothing else about the request changes. */
  function WithCtxValue(val: string, req: Request): (o: Outcome)
    ensures o.Next?
    ensures o.req.stack == Some(StackOf(req) + [val])
    ensures o.req.verb == req.verb && o.req.credentials == req.credentials
  {
    match req.stack
    case None =>
      assert [] + [val] == [val];
      Next(req.(stack := Some([val])))
    case Some(s) => Next(req.(stack := Some(s + [val])))
  }

  /** `preflightRequest`: an OPTIONS request is answered with nothing written
      and never reaches the inner handler; any other request is passed on
      unchanged. */
  function PreflightRequest(req: Request): (o: Outcome)
    ensures o.Reply? <==> req.verb == "OPTIONS"
    ensures o.Reply? ==> o.resp == NoReply
    ensures o.Next? ==> o.req == req
  {
    if req.verb == "OPTIONS" then Reply(NoReply) else Next(req)
  }

  /** `basicAuth`: 401 without credentials, 403 unless they are admin/admin,
      and otherwise the inner handler with the request unchanged. */
  function BasicAuthCheck(req: Request): (o: Outcome)
    ensures req.credentials.None? ==> o == Reply(Status(401))
    ensures o.Next? <==> req.credentials == Some(Credentials("admin", "admin"))
    ensures o.Next? ==> o.req == req
    ensures req.credentials.Some? && o.Reply? ==> o == Reply(Status(403))
  {
    match req.credentials
    case None => Reply(Status(401))
    case Some(c) =>
      if c.user != "admin" || c.password != "admin" then Reply(Status(403)) else Next(req)
  }

  /** `simpleHandler`: 500 when the request has no stack, otherwise the stack
      encoded as it is. */
  function SimpleHandler(req: Request): (resp: Response)
    ensures resp == Status(500) <==> req.stack.None?
    ensures req.stack.Some? ==> resp == Encoded(req.stack.value)
  {
    match req.stack
    case None => Status(500)
    case Some(s) => Encoded(s)
  }

  /** One middleware's part of handling a request. */
  function Step(m: Middleware, req: Request): Outcome
  {
    match m
    case Tag(v) => WithCtxValue(v, req)
    case Preflight => PreflightRequest(req)
    case BasicAuth => BasicAuthCheck(req)
    case Custom(name) => Reply(Unmodelled(name, req))
  }

  /** Invoking a terminal handler. */
  function Invoke(e: Endpoint, req: Request): Response
  {
    match e
    case Nil => NilCall
    case Simple => SimpleHandler(req)
    case Func(name) => Unmodelled(name, req)
  }

  /** Serving `req` with the composed handler `h`. */
  function Run(h: HandlerFunc, req: Request): Response
  {
    match h
    case Terminal(e) => Invoke(e, req)
    case Wrapped(m, inner) =>
      match Step(m, req)
      case Next(r) => Run(inner, r)
      case Reply(resp) => resp
  }

  /** `buildMiddlewares(values...)`, as a value: one tag per value, in order. */
  function Tags(values: seq<string>): (mws: seq<Middleware>)
    ensures |mws| == |values|
    ensures forall i :: 0 <= i < |values| ==> mws[i] == Tag(values[i])
    decreases |values|
  {
    if values == [] then [] else [Tag(values[0])] + Tags(values[1..])
  }

  /** `buildMiddlewares`: appends one tag middleware per value, in order. */
  method BuildMiddlewares(values: seq<string>) returns (mws: seq<Middleware>)
    ensures mws == Tags(values)
  {
    mws := [];
    var i := 0;
    while i < |values|
      invariant 0 <= i <= |values|
      invariant |mws| == i
      invariant forall k :: 0 <= k < i ==> mws[k] == Tag(values[k])
    {
      mws := mws + [Tag(values[i])];
      i := i + 1;
    }
  }

  /** Tags of a concatenation are the concatenated tags. */
  lemma {:induction false} TagsAppend(a: seq<string>, b: seq<string>)
    ensures Tags(a + b) == Tags(a) + Tags(b)
    decreases |a|
  {
    if a == [] {
      assert a + b == b;
    } else {
      assert (a + b)[0] == a[0];
      assert (a + b)[1..] == a[1..] + b;
      TagsAppend(a[1..], b);
    }
  }

  /** The stack after tags `vs` ran on a request with stack `st`. */
  function Pushed(st: Option<seq<string>>, vs: seq<string>): Option<seq<string>>
  {
    if vs == [] then st
    else match st
      case None => Some(vs)
      case Some(s) => Some(s + vs)
  }

  /** Pushing one value, then the rest, is pushing all of them. */
  lemma PushedCons(st: Option<seq<string>>, vs: seq<string>)
    requires vs != []
    ensures Pushed(Pushed(st, [vs[0]]), vs[1..]) == Pushed(st, vs)
  {
    assert [vs[0]] + vs[1..] == vs;
    if st.Some? {
      var s := st.value;
      assert Pushed(st, [vs[0]]) == Some(s + [vs[0]]);
      if vs[1..] == [] {
        assert vs == [vs[0]];
      } else {
        assert s + [vs[0]] + vs[1..] == s + vs;
      }
    } else {
      assert Pushed(st, [vs[0]]) == Some([vs[0]]);
      if vs[1..] == [] {
        assert vs == [vs[0]];
      }
    }
  }

  /** Tag middleware in front of `h` push their values on the stack, first
      listed first, and then hand the request to `h`. */
  lemma {:induction false} TagsRun(h: HandlerFunc, vs: seq<string>, req: Request)
    ensures Run(Compose(h, Tags(vs)), req) == Run(h, req.(stack := Pushed(req.stack, vs)))
    decreases |vs|
  {
    if vs != [] {
      var ts := Tags(vs);
      assert ts[1..] == Tags(vs[1..]);
      var rest := Compose(h, Tags(vs[1..]));
      assert Compose(h, ts) == Wrapped(Tag(vs[0]), rest);
      var next := req.(stack := Pushed(req.stack, [vs[0]]));
      assert Step(Tag(vs[0]), req) == Next(next);
      assert Run(Compose(h, ts), req) == Run(rest, next);
      TagsRun(h, vs[1..], next);
      PushedCons(req.stack, vs);
      assert next.(stack := Pushed(next.stack, vs[1..])) == req.(stack := Pushed(req.stack, vs));
    }
  }

  /** The ordering invariant, observed: a request with no stack, served by
      tags `vs` over `simpleHandler`, gets back exactly `vs` in order, or 500
      when there were no tags. */
  lemma OrderObserved(vs: seq<string>, req: Request)
    requires req.stack.None?
    ensures Run(Compose(Terminal(Simple), Tags(vs)), req) == if vs == [] then Status(500) else Encoded(vs)
  {
    TagsRun(Terminal(Simple), vs, req);
  }

  /** A middleware that answers stops the chain: what follows it in the
      list never runs. */
  lemma ReplyStopsChain(h: HandlerFunc, m: Middleware, ms: seq<Middleware>, req: Request)
    requires Step(m, req).Reply?
    ensures Run(Compose(h, [m] + ms), req) == Step(m, req).resp
  {
    assert ([m] + ms)[1..] == ms;
  }

  /** A preflight middleware in front answers OPTIONS requests itself and is
      transparent to every other request. */
  lemma PreflightInFront(h: HandlerFunc, ms: seq<Middleware>, req: Request)
    ensures req.verb == "OPTIONS" ==> Run(Compose(h, [Preflight] + ms), req) == NoReply
    ensures req.verb != "OPTIONS" ==> Run(Compose(h, [Preflight] + ms), req) == Run(Compose(h, ms), req)
  {
    assert ([Preflight] + ms)[1..] == ms;
  }

  /** A basic-auth middleware in front answers 401 or 403 itself unless the
      credentials are admin/admin, and is transparent then. */
  lemma BasicAuthInFront(h: HandlerFunc, ms: seq<Middleware>, req: Request)
    ensures Run(Compose(h, [BasicAuth] + ms), req) ==
      if req.credentials.None? then Status(401)
      else if req.credentials != Some(Credentials("admin", "admin")) then Status(403)
      else Run(Compose(h, ms), req)
  {
    assert ([BasicAuth] + ms)[1..] == ms;
  }

  /** `definitionWithCtxValues`: a definition with one tag per value as
      common middleware. */
  method DefinitionWithCtxValues(values: seq<string>) returns (d: RoutingDefinition)
    ensures fresh(d) && d.Valid()
    ensures d.commonMiddleware == Tags(values) && d.routes == []
  {
    var mws := BuildMiddlewares(values);
    d := new RoutingDefinition(mws);
  }

  /** `newTestRoute`: the single route GET /testMiddleware over
      `simpleHandler`, with the parent tags as its only middleware. */
  method NewTestRoute(values: seq<string>) returns (r: Route)
    ensures r == ScopedRoute(Tags(values), ["GET"], "/testMiddleware", Terminal(Simple), [])
  {
    var d := DefinitionWithCtxValues(values);
    d := d.Add("GET", "/testMiddleware", Terminal(Simple), []);
    var done := d.Done();
    r := done[0];
  }

  /** `newTestRouteWithMws`: the same route, with the parent tags then the
      route tags. */
  method NewTestRouteWithMws(parentValues: seq<string>, routeValues: seq<string>) returns (r: Route)
    ensures r == ScopedRoute(Tags(parentValues), ["GET"], "/testMiddleware", Terminal(Simple), Tags(routeValues))
  {
    var childMWs := BuildMiddlewares(routeValues);
    var d := DefinitionWithCtxValues(parentValues);
    d := d.Add("GET", "/testMiddleware", Terminal(Simple), childMWs);
    var done := d.Done();
    r := done[0];
  }

  /** `newHandlerWithMiddleware`: ignores its arguments and always builds the
      route with parent tags 0, 1 and route tags 2, 3. */
  method NewHandlerWithMiddleware(values: seq<string>) returns (r: Route)
    ensures r == ScopedRoute(Tags(["0", "1"]), ["GET"], "/testMiddleware", Terminal(Simple), Tags(["2", "3"]))
  {
    var mws := BuildMiddlewares(["2", "3"]);
    var d := DefinitionWithCtxValues(["0", "1"]);
    d := d.Add("GET", "/testMiddleware", Terminal(Simple), mws);
    var done := d.Done();
    r := done[0];
  }

  /** What a test route answers the test request: the parent tags then the
      route tags, or 500 when there are none. */
  lemma TestRouteAnswer(parentValues: seq<string>, routeValues: seq<string>)
    ensures Run(ScopedRoute(Tags(parentValues), ["GET"], "/testMiddleware", Terminal(Simple), Tags(routeValues)).Handler(), TestRequest())
      == if parentValues + routeValues == [] then Status(500) else Encoded(parentValues + routeValues)
  {
    TagsAppend(parentValues, routeValues);
    OrderObserved(parentValues + routeValues, TestRequest());
  }

  /** `newHandlerWithMiddleware` answers 0, 1, 2, 3 whatever it was given. */
  lemma HandlerWithMiddlewareAnswer()
    ensures Run(ScopedRoute(Tags(["0", "1"]), ["GET"], "/testMiddleware", Terminal(Simple), Tags(["2", "3"])).Handler(), TestRequest())
      == Encoded(["0", "1", "2", "3"])
  {
    TestRouteAnswer(["0", "1"], ["2", "3"]);
    assert ["0", "1"] + ["2", "3"] == ["0", "1", "2", "3"];
  }

  /** `TestBuilder_Build`: a route built with no middleware over
      `simpleHandler` answers 500. */
  lemma BuilderBuildTable()
    ensures Run(Compose(Terminal(Simple), []), TestRequest()) == Status(500)
  {
  }

  /** `TestBuilder_Build` through the builder: GET with `simpleHandler` and
      no middleware gives the bare handler, which answers 500. */
  method BuildWithoutMiddleware() returns (r: Route)
    ensures r.Methods() == ["GET"] && r.Handler() == Terminal(Simple)
    ensures Run(r.Handler(), TestRequest()) == Status(500)
  {
    var b := new Builder(["GET"]);
    b := b.Handler(Terminal(Simple));
    r := b.Build();
  }

  /** The check of `TestRoute_GetMethod` as written: it reports an error when
      `Methods()` equals the expected list. */
  predicate GetMethodReportsAsWritten(r: Route, want: seq<string>)
  {
    r.Methods() == want
  }

  /** As written, the test reports an error on its own, correct, case. */
  lemma GetMethodAsWrittenRejectsCorrectRoute()
    ensures GetMethodReportsAsWritten(Route(["GET"], "/api/test", Terminal(Nil)), ["GET"])
  {
  }

  /** The intended check: report an error when `Methods()` differs. */
  predicate GetMethodReports(r: Route, want: seq<string>)
  {
    r.Methods() != want
  }

  /** The intended check passes every route built from one method, and
      fails every route whose methods are not the expected ones. */
  lemma GetMethodAcceptsStoredMethods(verb: string, path: string, h: HandlerFunc, want: seq<string>)
    ensures !GetMethodReports(Route([verb], path, h), [verb])
    ensures GetMethodReports(Route([verb], path, h), want) <==> want != [verb]
  {
  }

  /** The table of `TestRoutingDefinition`. */
  lemma RoutingDefinitionTable()
    ensures Run(ScopedRoute(Tags([]), ["GET"], "/testMiddleware", Terminal(Simple), []).Handler(), TestRequest()) == Status(500)
    ensures Run(ScopedRoute(Tags(["0"]), ["GET"], "/testMiddleware", Terminal(Simple), []).Handler(), TestRequest()) == Encoded(["0"])
    ensures Run(ScopedRoute(Tags(["0", "1", "4", "8"]), ["GET"], "/testMiddleware", Terminal(Simple), []).Handler(), TestRequest())
      == Encoded(["0", "1", "4", "8"])
  {
    var none: seq<string> := [];
    assert Tags(none) == [];
    TestRouteAnswer(none, none);
    TestRouteAnswer(["0"], none);
    TestRouteAnswer(["0", "1", "4", "8"], none);
    assert ["0"] + none == ["0"];
    assert ["0", "1", "4", "8"] + none == ["0", "1", "4", "8"];
  }

  /** The table of `TestRoutingDefinitionWithChildMiddlewares`. */
  lemma RoutingDefinitionWithChildTable()
    ensures Run(ScopedRoute(Tags([]), ["GET"], "/testMiddleware", Terminal(Simple), Tags([])).Handler(), TestRequest()) == Status(500)
    ensures Run(ScopedRoute(Tags([]), ["GET"], "/testMiddleware", Terminal(Simple), Tags(["child"])).Handler(), TestRequest())
      == Encoded(["child"])
    ensures Run(ScopedRoute(Tags(["1"]), ["GET"], "/testMiddleware", Terminal(Simple), Tags(["0"])).Handler(), TestRequest())
      == Encoded(["1", "0"])
    ensures Run(ScopedRoute(Tags(["0", "1", "4", "8"]), ["GET"], "/testMiddleware", Terminal(Simple), Tags(["10", "11"])).Handler(), TestRequest())
      == Encoded(["0", "1", "4", "8", "10", "11"])
  {
    var none: seq<string> := [];
    TestRouteAnswer(none, none);
    TestRouteAnswer(none, ["child"]);
    TestRouteAnswer(["1"], ["0"]);
    TestRouteAnswer(["0", "1", "4", "8"], ["10", "11"]);
    assert none + ["child"] == ["child"];
    assert ["1"] + ["0"] == ["1", "0"];
    assert ["0", "1", "4", "8"] + ["10", "11"] == ["0", "1", "4", "8", "10", "11"];
  }

  /** Detach inheritance, observed: a route added with extra tags `e` to a
      child detached with tags `d` from a definition with tags `p` answers
      `p`, then `d`, then `e`. */
  lemma DetachedRouteAnswer(p: seq<string>, d: seq<string>, e: seq<string>)
    requires p + d + e != []
    ensures Run(ScopedRoute(Tags(p) + Tags(d), ["GET"], "/testMiddleware", Terminal(Simple), Tags(e)).Handler(), TestRequest())
      == Encoded(p + d + e)
  {
    TagsAppend(p, d);
    TestRouteAnswer(p + d, e);
  }
}
