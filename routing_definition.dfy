/** RoutingDefinition of routingDefinition.go: a scope of "common" middleware
    and an append-only list of finished routes. */
module Definitions {
  import opened Handlers
  import opened RouteValue
  import opened Builders

  /** The route `AddMany(methods, path, h, extra...)` builds in a scope whose
      common middleware is `common`. */
  function ScopedRoute(common: seq<Middleware>, methods: seq<string>, path: string, h: HandlerFunc, extra: seq<Middleware>): (r: Route)
    ensures r.Methods() == methods && r.Path() == path
    ensures Trace(r.Handler()) == common + extra + Trace(h)
    ensures Innermost(r.Handler()) == Innermost(h)
  {
    ComposeTrace(h, common + extra);
    Route(methods, path, Compose(h, common + extra))
  }

  /** `common` runs before anything else in route `r`. */
  predicate RunsFirst(common: seq<Middleware>, r: Route)
  {
    common <= Trace(r.Handler())
  }

  /** Appending a route that runs `common` first to a list whose routes all
      do keeps that so. */
  lemma AppendKeepsRunsFirst(common: seq<Middleware>, routes: seq<Route>, r: Route)
    requires forall i :: 0 <= i < |routes| ==> RunsFirst(common, routes[i])
    requires RunsFirst(common, r)
    ensures forall i :: 0 <= i < |routes + [r]| ==> RunsFirst(common, (routes + [r])[i])
  {
    forall i | 0 <= i < |routes + [r]| ensures RunsFirst(common, (routes + [r])[i]) {
      if i < |routes| {
        assert (routes + [r])[i] == routes[i];
      }
    }
  }

  class RoutingDefinition {
    var commonMiddleware: seq<Middleware>
    var routes: seq<Route>

    /** Every route of the scope runs the common middleware first, in order. */
    ghost predicate Valid()
      reads this
    {
      forall i :: 0 <= i < |routes| ==> RunsFirst(commonMiddleware, routes[i])
    }

    /** `NewDefinition(m...)`: a copy of `m` as common middleware, no routes. */
    constructor (m: seq<Middleware>)
      ensures Valid()
      ensures commonMiddleware == m && routes == []
    {
      commonMiddleware := m;
      routes := [];
    }

    /** `AddMany`: builds one route with `common ++ extra` and appends it;
        earlier routes and the common middleware stay as they were. Returns
        the same definition. */
    method AddMany(methods: seq<string>, path: string, h: HandlerFunc, extra: seq<Middleware>) returns (self: RoutingDefinition)
      requires Valid()
      modifies this
      ensures Valid() && self == this
      ensures commonMiddleware == old(commonMiddleware)
      ensures routes == old(routes) + [ScopedRoute(commonMiddleware, methods, path, h, extra)]
    {
      var allMws := commonMiddleware;
      if |extra| > 0 {
        allMws := allMws + extra;
      }
      assert allMws == commonMiddleware + extra;
      var r := BuildChain(methods, path, h, allMws);
      assert r == ScopedRoute(commonMiddleware, methods, path, h, extra);
      ScopedRouteRunsCommonFirst(commonMiddleware, methods, path, h, extra);
      AppendKeepsRunsFirst(commonMiddleware, routes, r);
      routes := routes + [r];
      self := this;
    }

    /** `Add`: exactly `AddMany([verb], ...)`. */
    method Add(verb: string, path: string, h: HandlerFunc, extra: seq<Middleware>) returns (self: RoutingDefinition)
      requires Valid()
      modifies this
      ensures Valid() && self == this
      ensures commonMiddleware == old(commonMiddleware)
      ensures routes == old(routes) + [ScopedRoute(commonMiddleware, [verb], path, h, extra)]
    {
      self := AddMany([verb], path, h, extra);
    }

    /** `Detach`: a new scope whose common middleware is this scope's followed
        by `extra`, with no routes. This scope is not changed. */
    method Detach(extra: seq<Middleware>) returns (child: RoutingDefinition)
      ensures fresh(child) && child.Valid()
      ensures child.commonMiddleware == commonMiddleware + extra && child.routes == []
    {
      var allMiddleware: seq<Middleware> := [];
      allMiddleware := allMiddleware + commonMiddleware;
      allMiddleware := allMiddleware + extra;
      child := new RoutingDefinition(allMiddleware);
    }

    /** `Done`: the routes added so far, in insertion order. */
    method Done() returns (rs: seq<Route>)
      ensures rs == routes
    {
      rs := routes;
    }
  }

  /** Detach inheritance: adding a route to a detached child gives it the
      parent's common middleware, then the detach middleware, then its own,
      and leaves the parent's routes and middleware as they were. */
  method AddToDetached(parent: RoutingDefinition, d: seq<Middleware>, methods: seq<string>, path: string, h: HandlerFunc, extra: seq<Middleware>)
    returns (child: RoutingDefinition)
    ensures fresh(child) && child.Valid()
    ensures child.routes == [ScopedRoute(parent.commonMiddleware, methods, path, h, d + extra)]
    ensures parent.routes == old(parent.routes) && parent.commonMiddleware == old(parent.commonMiddleware)
  {
    child := parent.Detach(d);
    child := child.AddMany(methods, path, h, extra);
    DetachedRouteIsParentRoute(parent.commonMiddleware, d, methods, path, h, extra);
  }

  /** A route carries its scope's common middleware in front. */
  lemma ScopedRouteRunsCommonFirst(common: seq<Middleware>, methods: seq<string>, path: string, h: HandlerFunc, extra: seq<Middleware>)
    ensures RunsFirst(common, ScopedRoute(common, methods, path, h, extra))
    ensures RunsFirst(common + extra, ScopedRoute(common, methods, path, h, extra))
  {
    var t := Trace(ScopedRoute(common, methods, path, h, extra).Handler());
    assert t == common + extra + Trace(h);
    assert t[..|common|] == common;
    assert t[..|common + extra|] == common + extra;
  }

  /** A route added in a child detached with `d` from a scope with common
      middleware `common` runs `common`, then `d`, then the route's own
      extra middleware: exactly as if it had been added to the parent with
      `d ++ extra`. */
  lemma DetachedRouteIsParentRoute(common: seq<Middleware>, d: seq<Middleware>, methods: seq<string>, path: string, h: HandlerFunc, extra: seq<Middleware>)
    ensures ScopedRoute(common + d, methods, path, h, extra) == ScopedRoute(common, methods, path, h, d + extra)
  {
    assert common + d + extra == common + (d + extra);
  }

  /** With no common and no extra middleware the route's handler is the bare
      handler. */
  lemma EmptyScopeIsBare(methods: seq<string>, path: string, h: HandlerFunc)
    ensures ScopedRoute([], methods, path, h, []).Handler() == h
  {
    var none: seq<Middleware> := [];
    assert none + none == none;
  }
}
