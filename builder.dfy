/** The route Builder of builder.go: a mutable accumulator of methods, path,
    handler and middleware, finalised by Build into a Route. */
module Builders {
  import opened Handlers
  import opened RouteValue

  /** `slices.Reverse`: reverses `a` in place. */
  method ReverseInPlace(a: array<Middleware>)
    modifies a
    ensures a[..] == Reversed(old(a[..]))
  {
    var n := a.Length;
    var i := 0;
    while i < n / 2
      invariant 0 <= i <= n / 2
      invariant forall k :: 0 <= k < n ==> a[k] == if k < i || n - i <= k then old(a[n - 1 - k]) else old(a[k])
    {
      a[i], a[n - 1 - i] := a[n - 1 - i], a[i];
      i := i + 1;
    }
  }

  /** `concat`: reverses the middleware slice in place, then wraps `h` with
      each element in turn, so the first-listed middleware ends up outermost. */
  method Concat(h: HandlerFunc, middleware: array<Middleware>) returns (r: HandlerFunc)
    modifies middleware
    ensures middleware[..] == Reversed(old(middleware[..]))
    ensures r == Compose(h, old(middleware[..]))
  {
    ReverseInPlace(middleware);
    var n := middleware.Length;
    r := h;
    var i := 0;
    while i < n
      invariant 0 <= i <= n
      invariant middleware[..] == Reversed(old(middleware[..]))
      invariant r == Compose(h, old(middleware[..])[n - i..])
    {
      ghost var given, k := old(middleware[..]), n - 1 - i;
      assert middleware[i] == given[k];
      ComposeSuffix(h, given, k);
      r := Wrapped(middleware[i], r);
      assert r == Compose(h, given[k..]);
      i := i + 1;
    }
    assert old(middleware[..])[n - i..] == old(middleware[..]);
  }

  class Builder {
    var methods: seq<string>
    var path: string
    var handlerFunc: HandlerFunc
    var middleware: array<Middleware>

    /** `NewBuilder(method...)`: the methods are stored as given, without any
        check; path, handler and middleware start at Go's zero values. */
    constructor (methods: seq<string>)
      ensures this.methods == methods && path == "" && handlerFunc == Terminal(Nil)
      ensures fresh(middleware) && middleware[..] == []
    {
      this.methods := methods;
      path := "";
      handlerFunc := Terminal(Nil);
      middleware := new Middleware[0];
    }

    /** Overwrites the path; nothing else changes; returns the same builder. */
    method Path(p: string) returns (self: Builder)
      modifies this
      ensures self == this && path == p
      ensures methods == old(methods) && handlerFunc == old(handlerFunc) && middleware == old(middleware)
    {
      path := p;
      self := this;
    }

    /** Overwrites the handler; nothing else changes; returns the same builder. */
    method Handler(h: HandlerFunc) returns (self: Builder)
      modifies this
      ensures self == this && handlerFunc == h
      ensures methods == old(methods) && path == old(path) && middleware == old(middleware)
    {
      handlerFunc := h;
      self := this;
    }

    /** Appends `ms` after the middleware collected so far. The list lands in
        a new backing array, so later changes to it reach nobody else. */
    method Middleware(ms: seq<Middleware>) returns (self: Builder)
      modifies this
      ensures self == this && fresh(middleware)
      ensures middleware[..] == old(middleware[..]) + ms
      ensures methods == old(methods) && path == old(path) && handlerFunc == old(handlerFunc)
    {
      var all := middleware[..] + ms;
      middleware := new Middleware[|all|](i requires 0 <= i < |all| => all[i]);
      assert middleware[..] == all;
      self := this;
    }

    /** Composes the collected middleware over the handler, overwrites the
        handler field with the result, leaves the middleware array reversed,
        and returns the route with the builder's methods and path. */
    method Build() returns (r: Route)
      modifies this, middleware
      ensures middleware == old(middleware)
      ensures handlerFunc == Compose(old(handlerFunc), old(middleware[..]))
      ensures middleware[..] == Reversed(old(middleware[..]))
      ensures methods == old(methods) && path == old(path)
      ensures r == Route(methods, path, handlerFunc)
    {
      handlerFunc := Concat(handlerFunc, middleware);
      r := Route(methods, path, handlerFunc);
    }
  }

  /** Building a second time wraps the already composed handler again, with
      the middleware now in reverse order, and leaves the array back in its
      original order. */
  lemma RebuildTrace(h: HandlerFunc, ms: seq<Middleware>)
    ensures Trace(Compose(Compose(h, ms), Reversed(ms))) == Reversed(ms) + ms + Trace(h)
    ensures Reversed(Reversed(ms)) == ms
  {
    ReversedTwice(ms);
    ComposeTrace(Compose(h, ms), Reversed(ms));
    ComposeTrace(h, ms);
  }

  /** The builder chain `NewBuilder(methods...).Path(p).Handler(h)
      .Middleware(ms...).Build()` of routing.go's example and of `AddMany`:
      the route runs the middleware in the order passed to `Middleware`,
      then the handler. */
  method BuildChain(methods: seq<string>, p: string, h: HandlerFunc, ms: seq<Middleware>) returns (r: Route)
    ensures r == Route(methods, p, Compose(h, ms))
    ensures r.Methods() == methods && r.Path() == p
    ensures Trace(r.Handler()) == ms + Trace(h)
  {
    var b := new Builder(methods);
    b := b.Path(p);
    b := b.Handler(h);
    b := b.Middleware(ms);
    assert b.middleware[..] == ms;
    r := b.Build();
    ComposeTrace(h, ms);
  }
}
