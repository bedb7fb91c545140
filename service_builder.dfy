/** ServiceBuilder of serviceBuilder.go and the `Routing` contributor
    interface of routing.go. */
module Services {
  import opened Handlers
  import opened RouteValue
  import opened Definitions
  import opened Registry

  /** The arguments of one `AddMany(methods, path, handler, extra...)` call. */
  datatype RouteSpec = RouteSpec(methods: seq<string>, path: string, handler: HandlerFunc, extra: seq<Middleware>)

  /** A child scope a contributor detaches with `detach`, and the routes it
      adds there. */
  datatype Group = Group(detach: seq<Middleware>, specs: seq<RouteSpec>)

  /** A `Routing` contributor, as the script its `Routes(with)` runs against
      the definition it is given: add `own` to that definition, then for each
      group detach a child and add the group's routes to the child; return
      the definition's `Done()` followed by each child's `Done()`. */
  datatype Routing = Routing(own: seq<RouteSpec>, groups: seq<Group>)

  /** The routes that `specs` add to a scope with common middleware `common`. */
  function SpecRoutes(common: seq<Middleware>, specs: seq<RouteSpec>): seq<Route>
  {
    seq(|specs|, i requires 0 <= i < |specs| =>
      ScopedRoute(common, specs[i].methods, specs[i].path, specs[i].handler, specs[i].extra))
  }

  /** The routes of the detached groups, group after group. */
  function GroupRoutes(common: seq<Middleware>, groups: seq<Group>): seq<Route>
    decreases |groups|
  {
    if groups == [] then []
    else
      var last := groups[|groups| - 1];
      GroupRoutes(common, groups[..|groups| - 1]) + SpecRoutes(common + last.detach, last.specs)
  }

  /** The routes contributor `c` returns when handed a fresh definition with
      common middleware `common`. */
  function ContributedRoutes(common: seq<Middleware>, c: Routing): seq<Route>
  {
    SpecRoutes(common, c.own) + GroupRoutes(common, c.groups)
  }

  /** Adds `specs` to `definition`, in order. */
  method AddSpecs(definition: RoutingDefinition, specs: seq<RouteSpec>)
    requires definition.Valid()
    modifies definition
    ensures definition.Valid()
    ensures definition.commonMiddleware == old(definition.commonMiddleware)
    ensures definition.routes == old(definition.routes) + SpecRoutes(definition.commonMiddleware, specs)
  {
    var i := 0;
    while i < |specs|
      invariant 0 <= i <= |specs|
      invariant definition.Valid()
      invariant definition.commonMiddleware == old(definition.commonMiddleware)
      invariant definition.routes == old(definition.routes) + SpecRoutes(definition.commonMiddleware, specs[..i])
    {
      var s := specs[i];
      var _ := definition.AddMany(s.methods, s.path, s.handler, s.extra);
      var r := ScopedRoute(definition.commonMiddleware, s.methods, s.path, s.handler, s.extra);
      assert SpecRoutes(definition.commonMiddleware, specs[..i + 1])
        == SpecRoutes(definition.commonMiddleware, specs[..i]) + [r];
      AppendAssociates(old(definition.routes), SpecRoutes(definition.commonMiddleware, specs[..i]), [r]);
      i := i + 1;
    }
    assert specs[..i] == specs;
  }

  /** `Routing.Routes(with)`: runs contributor `c` against `definition`. */
  method Routes(c: Routing, definition: RoutingDefinition) returns (rs: seq<Route>)
    requires definition.Valid()
    modifies definition
    ensures definition.Valid()
    ensures definition.commonMiddleware == old(definition.commonMiddleware)
    ensures definition.routes == old(definition.routes) + SpecRoutes(definition.commonMiddleware, c.own)
    ensures rs == old(definition.routes) + ContributedRoutes(definition.commonMiddleware, c)
  {
    AddSpecs(definition, c.own);
    var common := definition.commonMiddleware;
    var children: seq<Route> := [];
    var i := 0;
    while i < |c.groups|
      invariant 0 <= i <= |c.groups|
      invariant definition.Valid()
      invariant definition.commonMiddleware == common
      invariant definition.routes == old(definition.routes) + SpecRoutes(common, c.own)
      invariant children == GroupRoutes(common, c.groups[..i])
    {
      var g := c.groups[i];
      var child := definition.Detach(g.detach);
      AddSpecs(child, g.specs);
      var done := child.Done();
      children := children + done;
      assert c.groups[..i + 1][..i] == c.groups[..i];
      i := i + 1;
    }
    assert c.groups[..i] == c.groups;
    var own := definition.Done();
    rs := own + children;
  }

  /** What mounting contributors `cs` of a service with middleware `mws`
      registers, contributor after contributor. */
  function ServiceRegistrations(mws: seq<Middleware>, cs: seq<Routing>): seq<Registration>
    decreases |cs|
  {
    if cs == [] then []
    else ServiceRegistrations(mws, cs[..|cs| - 1]) + RegistrationsOf(ContributedRoutes(mws, cs[|cs| - 1]))
  }

  class ServiceBuilder {
    var routing: seq<Routing>
    var mws: seq<Middleware>

    /** `NewServiceBuilder(common...)`: no contributors, `common` as middleware. */
    constructor (commonMiddlewares: seq<Middleware>)
      ensures routing == [] && mws == commonMiddlewares
    {
      routing := [];
      mws := commonMiddlewares;
    }

    /** Appends contributors after the existing ones, in argument order. */
    method Add(rs: seq<Routing>) returns (self: ServiceBuilder)
      modifies this
      ensures self == this
      ensures routing == old(routing) + rs && mws == old(mws)
    {
      routing := routing + rs;
      self := this;
    }

    /** Appends middleware after the existing middleware, in argument order. */
    method MW(ms: seq<Middleware>) returns (self: ServiceBuilder)
      modifies this
      ensures self == this
      ensures mws == old(mws) + ms && routing == old(routing)
    {
      mws := mws + ms;
      self := this;
    }

    /** `MountTo`: each contributor in turn gets a new definition seeded with
        the middleware as it is now, and the routes it returns are
        registered in the order returned. */
    method MountTo(mux: ServeMux)
      modifies mux
      ensures mux.log == old(mux.log) + ServiceRegistrations(mws, routing)
    {
      var contributors, common := routing, mws;
      var i := 0;
      while i < |contributors|
        invariant 0 <= i <= |contributors|
        invariant mux.log == old(mux.log) + ServiceRegistrations(common, contributors[..i])
      {
        var definition := new RoutingDefinition(common);
        var routes := Routes(contributors[i], definition);
        assert routes == ContributedRoutes(common, contributors[i]);
        MountRoutes(mux, routes);
        ServiceRegistrationsPrefix(common, contributors, i);
        AppendAssociates(old(mux.log), ServiceRegistrations(common, contributors[..i]), RegistrationsOf(routes));
        i := i + 1;
      }
      assert contributors[..i] == contributors;
    }
  }

  /** One more contributor registers its routes after the others. */
  lemma ServiceRegistrationsPrefix(mws: seq<Middleware>, cs: seq<Routing>, i: nat)
    requires i < |cs|
    ensures ServiceRegistrations(mws, cs[..i + 1]) == ServiceRegistrations(mws, cs[..i]) + RegistrationsOf(ContributedRoutes(mws, cs[i]))
  {
    assert cs[..i + 1][..i] == cs[..i];
  }

  /** One more contributor registers its routes after the others. */
  lemma ServiceRegistrationsSnoc(mws: seq<Middleware>, cs: seq<Routing>, c: Routing)
    ensures ServiceRegistrations(mws, cs + [c]) == ServiceRegistrations(mws, cs) + RegistrationsOf(ContributedRoutes(mws, c))
  {
    assert (cs + [c])[..|cs|] == cs;
  }

  /** Mounting two lists of contributors one after the other registers what
      mounting their concatenation does. */
  lemma {:induction false} ServiceRegistrationsAppend(mws: seq<Middleware>, a: seq<Routing>, b: seq<Routing>)
    ensures ServiceRegistrations(mws, a + b) == ServiceRegistrations(mws, a) + ServiceRegistrations(mws, b)
    decreases |b|
  {
    if b == [] {
      assert a + b == a;
    } else {
      var init, last := b[..|b| - 1], b[|b| - 1];
      assert a + b == (a + init) + [last];
      assert b == init + [last];
      ServiceRegistrationsSnoc(mws, a + init, last);
      ServiceRegistrationsSnoc(mws, init, last);
      ServiceRegistrationsAppend(mws, a, init);
      AppendAssociates(ServiceRegistrations(mws, a), ServiceRegistrations(mws, init), RegistrationsOf(ContributedRoutes(mws, last)));
    }
  }

  /** Isolation of contributors: what contributor `cs[i]` registers depends on
      the service middleware and on that contributor alone, and sits between
      the registrations of the contributors before it and after it. */
  lemma {:induction false} ContributorIsolation(mws: seq<Middleware>, cs: seq<Routing>, i: nat)
    requires i < |cs|
    ensures ServiceRegistrations(mws, cs) ==
      ServiceRegistrations(mws, cs[..i]) + RegistrationsOf(ContributedRoutes(mws, cs[i])) + ServiceRegistrations(mws, cs[i + 1..])
  {
    var before, here, after := cs[..i], [cs[i]], cs[i + 1..];
    assert cs == before + here + after;
    ServiceRegistrationsAppend(mws, before + here, after);
    ServiceRegistrationsAppend(mws, before, here);
    assert here[..0] == [];
  }

  /** Every route a contributor returns runs the service middleware first. */
  lemma {:induction false} ContributedRoutesRunServiceFirst(mws: seq<Middleware>, c: Routing, k: nat)
    requires k < |ContributedRoutes(mws, c)|
    ensures RunsFirst(mws, ContributedRoutes(mws, c)[k])
  {
    var own := SpecRoutes(mws, c.own);
    if k < |own| {
      var s := c.own[k];
      ScopedRouteRunsCommonFirst(mws, s.methods, s.path, s.handler, s.extra);
    } else {
      GroupRoutesRunFirst(mws, c.groups, k - |own|);
    }
  }

  /** Every route of a detached group runs the parent middleware first. */
  lemma {:induction false} GroupRoutesRunFirst(common: seq<Middleware>, groups: seq<Group>, k: nat)
    requires k < |GroupRoutes(common, groups)|
    ensures RunsFirst(common, GroupRoutes(common, groups)[k])
    decreases |groups|
  {
    var init := groups[..|groups| - 1];
    var last := groups[|groups| - 1];
    var front := GroupRoutes(common, init);
    if k < |front| {
      GroupRoutesRunFirst(common, init, k);
    } else {
      var s := last.specs[k - |front|];
      ScopedRouteRunsCommonFirst(common + last.detach, s.methods, s.path, s.handler, s.extra);
      var t := Trace(GroupRoutes(common, groups)[k].Handler());
      assert (common + last.detach) <= t;
      assert t[..|common|] == (common + last.detach)[..|common|] == common;
    }
  }
}
