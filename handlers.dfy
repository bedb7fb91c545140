/** Handlers and middleware of httplayer.

    A Go handler is an opaque closure; here it is a value that records how it
    was put together: a terminal endpoint wrapped by zero or more middleware.
    The Go type `Middleware func(h http.HandlerFunc) http.HandlerFunc`
    (middlewareAlias.go) is the map `h => Wrapped(m, h)` for a middleware
    value `m`.
 */
module Handlers {

  /** The terminal handlers that appear in the system: the zero value of a Go
      `http.HandlerFunc` (nil), the `simpleHandler` test fixture, and any other
      handler, known only by name. */
  datatype Endpoint = Nil | Simple | Func(name: string)

  /** The middleware that appear in the system: the context-tagging fixture
      (`middlewareWithCtxValue`), the CORS preflight and basic-auth fixtures,
      and any other middleware, known only by name. */
  datatype Middleware = Tag(value: string) | Preflight | BasicAuth | Custom(name: string)

  /** A composed handler. `Wrapped(m, inner)` is `m(inner)` in Go. */
  datatype HandlerFunc = Terminal(endpoint: Endpoint) | Wrapped(mw: Middleware, inner: HandlerFunc)

  /** The middleware met when a request enters `h`, outermost first. */
  function Trace(h: HandlerFunc): seq<Middleware>
  {
    match h
    case Terminal(_) => []
    case Wrapped(m, inner) => [m] + Trace(inner)
  }

  /** The terminal endpoint at the bottom of `h`. */
  function Innermost(h: HandlerFunc): Endpoint
  {
    match h
    case Terminal(e) => e
    case Wrapped(_, inner) => Innermost(inner)
  }

  /** Reference composition: the first-listed middleware is the outermost, so
      a request meets `ms[0]`, then `ms[1]`, ..., then `h`. */
  function Compose(h: HandlerFunc, ms: seq<Middleware>): HandlerFunc
    decreases |ms|
  {
    if ms == [] then h else Wrapped(ms[0], Compose(h, ms[1..]))
  }

  /** The ordering invariant: composing `ms` over `h` yields a handler whose
      execution order is `ms` followed by whatever `h` already ran, over the
      same endpoint. */
  lemma {:induction false} ComposeTrace(h: HandlerFunc, ms: seq<Middleware>)
    ensures Trace(Compose(h, ms)) == ms + Trace(h)
    ensures Innermost(Compose(h, ms)) == Innermost(h)
    decreases |ms|
  {
    if ms != [] {
      ComposeTrace(h, ms[1..]);
      assert ms == [ms[0]] + ms[1..];
    }
  }

  /** Composing a suffix of `s` starting at `k` puts `s[k]` outermost. */
  lemma ComposeSuffix(h: HandlerFunc, s: seq<Middleware>, k: nat)
    requires k < |s|
    ensures Compose(h, s[k..]) == Wrapped(s[k], Compose(h, s[k + 1..]))
  {
    assert s[k..][1..] == s[k + 1..];
  }

  /** Composing in two steps is composing once with the lists concatenated:
      the middleware applied last ends up outermost. */
  lemma {:induction false} ComposeAppend(h: HandlerFunc, outer: seq<Middleware>, inner: seq<Middleware>)
    ensures Compose(h, outer + inner) == Compose(Compose(h, inner), outer)
    decreases |outer|
  {
    if outer == [] {
      assert outer + inner == inner;
    } else {
      assert (outer + inner)[1..] == outer[1..] + inner;
      ComposeAppend(h, outer[1..], inner);
    }
  }

  /** Every handler is the composition of its trace over its endpoint, so a
      handler is determined by its execution order and its endpoint. */
  lemma {:induction false} Decompose(h: HandlerFunc)
    ensures h == Compose(Terminal(Innermost(h)), Trace(h))
  {
    match h
    case Terminal(_) =>
    case Wrapped(m, inner) =>
      Decompose(inner);
      assert ([m] + Trace(inner))[1..] == Trace(inner);
  }

  /** Two handlers with the same trace and endpoint are the same handler. */
  lemma TraceDetermines(h1: HandlerFunc, h2: HandlerFunc)
    requires Trace(h1) == Trace(h2) && Innermost(h1) == Innermost(h2)
    ensures h1 == h2
  {
    Decompose(h1);
    Decompose(h2);
  }

  /** Concatenation associates; logs and route lists grow by it. */
  lemma AppendAssociates<T>(a: seq<T>, b: seq<T>, c: seq<T>)
    ensures (a + b) + c == a + (b + c)
  {
  }

  /** `s` in reverse order; `slices.Reverse` leaves a slice holding this. */
  function Reversed<T>(s: seq<T>): (r: seq<T>)
    ensures |r| == |s|
    ensures forall k :: 0 <= k < |s| ==> r[k] == s[|s| - 1 - k]
    decreases |s|
  {
    if s == [] then [] else Reversed(s[1..]) + [s[0]]
  }

  /** Reversing twice gives the list back. */
  lemma ReversedTwice<T>(s: seq<T>)
    ensures Reversed(Reversed(s)) == s
  {
    var r := Reversed(Reversed(s));
    assert |r| == |s|;
    forall k | 0 <= k < |s| ensures r[k] == s[k] {
      assert r[k] == Reversed(s)[|s| - 1 - k];
    }
  }
}
