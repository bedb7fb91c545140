/** Mounting of mount.go: registering the routes of definitions and services
    with a new multiplexer, and the dynamic registration of routes that
    arrive later. */
module Mounting {
  import opened Handlers
  import opened RouteValue
  import opened Definitions
  import opened Registry
  import opened Services

  /** The routes of `definitions`, definition after definition, each in its
      `Done()` order. */
  function AllRoutes(definitions: seq<RoutingDefinition>): seq<Route>
    reads definitions
    decreases |definitions|
  {
    if definitions == [] then []
    else AllRoutes(definitions[..|definitions| - 1]) + definitions[|definitions| - 1].routes
  }

  /** What mounting `services` registers, service after service. */
  function AllServiceRegistrations(services: seq<ServiceBuilder>): seq<Registration>
    reads services
    decreases |services|
  {
    if services == [] then []
    else
      var last := services[|services| - 1];
      AllServiceRegistrations(services[..|services| - 1]) + ServiceRegistrations(last.mws, last.routing)
  }

  /** The routes, and the registrations, of every prefix one definition
      longer. */
  lemma AllRoutesPrefixes(definitions: seq<RoutingDefinition>)
    ensures forall i :: 0 <= i < |definitions| ==>
      RegistrationsOf(AllRoutes(definitions[..i + 1])) ==
      RegistrationsOf(AllRoutes(definitions[..i])) + RegistrationsOf(definitions[i].routes)
  {
    forall i | 0 <= i < |definitions|
      ensures RegistrationsOf(AllRoutes(definitions[..i + 1])) ==
        RegistrationsOf(AllRoutes(definitions[..i])) + RegistrationsOf(definitions[i].routes)
    {
      assert definitions[..i + 1][..i] == definitions[..i];
      RegistrationsOfAppend(AllRoutes(definitions[..i]), definitions[i].routes);
    }
  }

  /** The registrations of a prefix one service longer. */
  lemma AllServiceRegistrationsPrefix(services: seq<ServiceBuilder>, i: nat)
    requires i < |services|
    ensures AllServiceRegistrations(services[..i + 1]) ==
      AllServiceRegistrations(services[..i]) + ServiceRegistrations(services[i].mws, services[i].routing)
  {
    assert services[..i + 1][..i] == services[..i];
  }

  /** `mount`: a new multiplexer with every route of every definition, in
      definition order and then route order. */
  method MountDefinitions(definitions: seq<RoutingDefinition>) returns (mux: ServeMux)
    ensures fresh(mux)
    ensures mux.log == RegistrationsOf(AllRoutes(definitions))
  {
    mux := new ServeMux();
    MountDefinitionsTo(mux, definitions);
  }

  /** The loop of `mount`: for each definition in turn, every route of its
      `Done()`, in order. */
  method MountDefinitionsTo(mux: ServeMux, definitions: seq<RoutingDefinition>)
    modifies mux
    ensures mux.log == old(mux.log) + RegistrationsOf(AllRoutes(definitions))
  {
    AllRoutesPrefixes(definitions);
    var i := 0;
    while i < |definitions|
      invariant 0 <= i <= |definitions|
      invariant mux.log == old(mux.log) + RegistrationsOf(old(AllRoutes(definitions[..i])))
    {
      var routes := definitions[i].Done();
      assert routes == old(definitions[i].routes);
      MountRoutes(mux, routes);
      AppendAssociates(old(mux.log), RegistrationsOf(old(AllRoutes(definitions[..i]))), RegistrationsOf(routes));
      i := i + 1;
    }
    assert definitions[..i] == definitions;
  }

  /** `Mount`: the same as `mount`. */
  method Mount(definitions: seq<RoutingDefinition>) returns (mux: ServeMux)
    ensures fresh(mux)
    ensures mux.log == RegistrationsOf(AllRoutes(definitions))
  {
    mux := MountDefinitions(definitions);
  }

  /** `MountServices`: a new multiplexer, with `MountTo` run for each service
      in order. */
  method MountServices(services: seq<ServiceBuilder>) returns (mux: ServeMux)
    ensures fresh(mux)
    ensures mux.log == AllServiceRegistrations(services)
  {
    mux := new ServeMux();
    MountServicesTo(mux, services);
  }

  /** The loop of `MountServices`: `MountTo` for each service in turn. */
  method MountServicesTo(mux: ServeMux, services: seq<ServiceBuilder>)
    modifies mux
    ensures mux.log == old(mux.log) + AllServiceRegistrations(services)
  {
    var i := 0;
    while i < |services|
      invariant 0 <= i <= |services|
      invariant mux.log == old(mux.log) + AllServiceRegistrations(services[..i])
    {
      AllServiceRegistrationsPrefix(services, i);
      AppendAssociates(old(mux.log), AllServiceRegistrations(services[..i]), ServiceRegistrations(services[i].mws, services[i].routing));
      services[i].MountTo(mux);
      i := i + 1;
    }
    assert services[..i] == services;
  }

  /** What the background task of a dynamic mount observes, in order: a route
      received on the channel, or the context being done. */
  datatype Event = Received(route: Route) | Cancelled

  /** The routes received before the first cancellation. */
  function RoutesBeforeCancel(events: seq<Event>): seq<Route>
    decreases |events|
  {
    if events == [] then []
    else
      match events[0]
      case Cancelled => []
      case Received(r) => [r] + RoutesBeforeCancel(events[1..])
  }

  /** `listenDynamicMounts`: registers each received route, one at a time and
      in receipt order, and returns when cancellation is observed. */
  method ListenDynamicMounts(mux: ServeMux, events: seq<Event>)
    modifies mux
    ensures mux.log == old(mux.log) + RegistrationsOf(RoutesBeforeCancel(events))
  {
    ghost var received: seq<Route> := [];
    var i := 0;
    while i < |events|
      invariant 0 <= i <= |events|
      invariant mux.log == old(mux.log) + RegistrationsOf(received)
      invariant RoutesBeforeCancel(events) == received + RoutesBeforeCancel(events[i..])
    {
      var e := events[i];
      RoutesBeforeCancelStep(events, i);
      if e.Cancelled? {
        assert received + [] == received;
        return;
      }
      MountRoute(mux, e.route);
      RegistrationsOfSnoc(received, e.route);
      AppendAssociates(old(mux.log), RegistrationsOf(received), RouteRegistrations(e.route));
      received := received + [e.route];
      i := i + 1;
    }
    assert received + [] == received;
  }

  /** Unfolds `RoutesBeforeCancel` at position `i`. */
  lemma RoutesBeforeCancelStep(events: seq<Event>, i: nat)
    requires i < |events|
    ensures RoutesBeforeCancel(events[i..]) ==
      if events[i].Cancelled? then [] else [events[i].route] + RoutesBeforeCancel(events[i + 1..])
  {
    assert events[i..][0] == events[i];
    assert events[i..][1..] == events[i + 1..];
  }

  /** `DynamicMount`: the synchronous pass registers exactly what `mount`
      does; the routes received later follow, in receipt order, up to the
      first cancellation. */
  method DynamicMount(events: seq<Event>, definitions: seq<RoutingDefinition>) returns (mux: ServeMux)
    ensures fresh(mux)
    ensures mux.log == RegistrationsOf(AllRoutes(definitions)) + RegistrationsOf(RoutesBeforeCancel(events))
  {
    mux := MountDefinitions(definitions);
    ListenDynamicMounts(mux, events);
  }

  /** Once cancellation is observed, nothing that arrives afterwards is
      registered. */
  lemma {:induction false} NothingAfterCancel(before: seq<Event>, after: seq<Event>)
    ensures RoutesBeforeCancel(before + [Cancelled] + after) == RoutesBeforeCancel(before)
    decreases |before|
  {
    var all := before + [Cancelled] + after;
    if before == [] {
      assert all[0] == Cancelled;
    } else {
      assert all[0] == before[0];
      assert all[1..] == before[1..] + [Cancelled] + after;
      NothingAfterCancel(before[1..], after);
    }
  }

  /** Until cancellation every received route is registered, in receipt
      order: a route pushed after `before` follows the routes of `before`. */
  lemma {:induction false} ReceivedIsRegistered(before: seq<Event>, r: Route)
    requires forall k :: 0 <= k < |before| ==> before[k].Received?
    ensures RoutesBeforeCancel(before + [Received(r)]) == RoutesBeforeCancel(before) + [r]
    decreases |before|
  {
    var all := before + [Received(r)];
    if before == [] {
      assert all[1..] == [];
    } else {
      assert all[0] == before[0];
      assert all[1..] == before[1..] + [Received(r)];
      ReceivedIsRegistered(before[1..], r);
    }
  }
}
