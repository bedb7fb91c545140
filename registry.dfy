/** The request multiplexer as this system sees it, and `MountRoute` of
    mount.go. The multiplexer is reduced to what is written into it: an
    append-only log of (pattern, handler) registrations. */
module Registry {
  import opened Handlers
  import opened RouteValue

  datatype Registration = Registration(pattern: string, handler: HandlerFunc)

  /** `fmt.Sprintf("%s %s", method, path)`. */
  function Pattern(verb: string, path: string): (p: string)
    ensures |p| == |verb| + 1 + |path|
    ensures p[..|verb|] == verb && p[|verb|] == ' ' && p[|verb| + 1..] == path
  {
    verb + " " + path
  }

  /** The registrations of one route: one per method, in method order, all
      with the route's composed handler. */
  function RouteRegistrations(r: Route): (regs: seq<Registration>)
    ensures |regs| == |r.Methods()|
    ensures forall i :: 0 <= i < |regs| ==>
      regs[i] == Registration(Pattern(r.Methods()[i], r.Path()), r.Handler())
  {
    seq(|r.Methods()|, i requires 0 <= i < |r.Methods()| => Registration(Pattern(r.Methods()[i], r.Path()), r.Handler()))
  }

  /** The registrations of a list of routes, route after route. */
  function RegistrationsOf(routes: seq<Route>): seq<Registration>
    decreases |routes|
  {
    if routes == [] then [] else RegistrationsOf(routes[..|routes| - 1]) + RouteRegistrations(routes[|routes| - 1])
  }

  /** One more route adds its own registrations at the end. */
  lemma RegistrationsOfSnoc(rs: seq<Route>, r: Route)
    ensures RegistrationsOf(rs + [r]) == RegistrationsOf(rs) + RouteRegistrations(r)
  {
    assert (rs + [r])[..|rs|] == rs;
  }

  /** The registrations of a prefix one route longer. */
  lemma RegistrationsOfPrefix(rs: seq<Route>, i: nat)
    requires i < |rs|
    ensures RegistrationsOf(rs[..i + 1]) == RegistrationsOf(rs[..i]) + RouteRegistrations(rs[i])
  {
    assert rs[..i + 1][..i] == rs[..i];
  }

  /** Registering two lists one after the other is registering their
      concatenation. */
  lemma {:induction false} RegistrationsOfAppend(rs: seq<Route>, qs: seq<Route>)
    ensures RegistrationsOf(rs + qs) == RegistrationsOf(rs) + RegistrationsOf(qs)
    decreases |qs|
  {
    if qs == [] {
      assert rs + qs == rs;
    } else {
      var init, last := qs[..|qs| - 1], qs[|qs| - 1];
      assert rs + qs == (rs + init) + [last];
      assert qs == init + [last];
      RegistrationsOfSnoc(rs + init, last);
      RegistrationsOfSnoc(init, last);
      RegistrationsOfAppend(rs, init);
      AppendAssociates(RegistrationsOf(rs), RegistrationsOf(init), RouteRegistrations(last));
    }
  }

  /** Route `rs[j]` contributes its own registrations, in one block, after
      those of every route before it and before those of every route after
      it. */
  lemma {:induction false} RegistrationsOfAt(rs: seq<Route>, j: nat)
    requires j < |rs|
    ensures RegistrationsOf(rs) == RegistrationsOf(rs[..j]) + RouteRegistrations(rs[j]) + RegistrationsOf(rs[j + 1..])
  {
    var before, here, after := rs[..j], [rs[j]], rs[j + 1..];
    assert rs == before + here + after;
    RegistrationsOfAppend(before + here, after);
    RegistrationsOfAppend(before, here);
    assert here[..0] == [];
    assert RegistrationsOf(here) == RouteRegistrations(rs[j]);
  }

  /** A route with methods GET and POST registers exactly two entries, one
      per method, at the same path and with the same handler. */
  lemma MultiMethodRoute(path: string, h: HandlerFunc)
    ensures RouteRegistrations(Route(["GET", "POST"], path, h)) ==
      [Registration(Pattern("GET", path), h), Registration(Pattern("POST", path), h)]
  {
    var regs := RouteRegistrations(Route(["GET", "POST"], path, h));
    assert regs[0] == Registration(Pattern("GET", path), h);
    assert regs[1] == Registration(Pattern("POST", path), h);
  }

  /** `reg` is the registration of route `r` for one of its methods. */
  ghost predicate FromRoute(reg: Registration, r: Route)
  {
    exists i :: 0 <= i < |r.Methods()| && reg == RouteRegistrations(r)[i]
  }

  /** Nothing is registered that no route asked for: every registration is
      that of some route of the list, for one of its methods. */
  lemma {:induction false} RegistrationsOfSource(routes: seq<Route>, k: nat)
    requires k < |RegistrationsOf(routes)|
    ensures exists j :: 0 <= j < |routes| && FromRoute(RegistrationsOf(routes)[k], routes[j])
    decreases |routes|
  {
    var init := routes[..|routes| - 1];
    var last := routes[|routes| - 1];
    if k < |RegistrationsOf(init)| {
      RegistrationsOfSource(init, k);
      var j :| 0 <= j < |init| && FromRoute(RegistrationsOf(init)[k], init[j]);
      assert routes[j] == init[j];
    } else {
      var i := k - |RegistrationsOf(init)|;
      assert RegistrationsOf(routes)[k] == RouteRegistrations(last)[i];
      assert FromRoute(RegistrationsOf(routes)[k], routes[|routes| - 1]);
    }
  }

  /** `http.ServeMux`, as the log of what has been registered with it. */
  class ServeMux {
    var log: seq<Registration>

    /** `http.NewServeMux()`: nothing registered. */
    constructor ()
      ensures log == []
    {
      log := [];
    }

    /** `HandleFunc`: records one registration. Pattern matching and the
        panic on a duplicate pattern are the multiplexer's own business. */
    method HandleFunc(pattern: string, h: HandlerFunc)
      modifies this
      ensures log == old(log) + [Registration(pattern, h)]
    {
      log := log + [Registration(pattern, h)];
    }
  }

  /** `MountRoute`: one registration per method of `r`, in method order,
      under `method + " " + path`, with the route's handler. */
  method MountRoute(mux: ServeMux, r: Route)
    modifies mux
    ensures mux.log == old(mux.log) + RouteRegistrations(r)
  {
    var methods := r.Methods();
    var i := 0;
    while i < |methods|
      invariant 0 <= i <= |methods|
      invariant mux.log == old(mux.log) + RouteRegistrations(r)[..i]
    {
      var pattern := Pattern(methods[i], r.Path());
      mux.HandleFunc(pattern, r.Handler());
      assert RouteRegistrations(r)[..i + 1] == RouteRegistrations(r)[..i] + [Registration(pattern, r.Handler())];
      AppendAssociates(old(mux.log), RouteRegistrations(r)[..i], [Registration(pattern, r.Handler())]);
      i := i + 1;
    }
    assert RouteRegistrations(r)[..i] == RouteRegistrations(r);
  }

  /** Registers `routes` one at a time, in order. */
  method MountRoutes(mux: ServeMux, routes: seq<Route>)
    modifies mux
    ensures mux.log == old(mux.log) + RegistrationsOf(routes)
  {
    var i := 0;
    while i < |routes|
      invariant 0 <= i <= |routes|
      invariant mux.log == old(mux.log) + RegistrationsOf(routes[..i])
    {
      MountRoute(mux, routes[i]);
      RegistrationsOfPrefix(routes, i);
      AppendAssociates(old(mux.log), RegistrationsOf(routes[..i]), RouteRegistrations(routes[i]));
      i := i + 1;
    }
    assert routes[..i] == routes;
  }
}
