# httplayer: middleware composition and route registration, in Dafny

This project models the core of `httplayer`, a Go library that sits on top of
`net/http`. The library builds routes from a method list, a path, a terminal
handler and an ordered list of middleware. It groups routes into routing
definitions that share "common" middleware, and it registers them with an
`http.ServeMux`.

The main promise is the ordering rule. For middleware `[m1, ..., mn]` over
handler `h`, a request meets `m1`, then `m2`, ..., then `mn`, then `h`. This
holds for every way of composing that the model covers. A Builder's
middleware list runs in the order given. A definition's route runs
`common ++ extra`. A detached child runs `parent ++ detach ++ extra`. For the
scripted contributors of this model (see the `Routing` contributors line
under "## Left out"), a service contributor's routes run the service
middleware first; a Go `Routing` that ignores the definition it is handed
gives no such guarantee.

Layout, one module per Go file, with two exceptions. `Handlers` stands for
middlewareAlias.go and for Go's handler closures. mount.go is split between
`Registry` and `Mounting`: `MountRoute` sits with the multiplexer in
`Registry`, because `Services` (serviceBuilder.go) calls it and `Mounting`
(the rest of mount.go) calls `MountTo`; one module for all of mount.go would
import `Services` and be imported by it.

- `handlers.dfy` (`Handlers`): a Go handler is an opaque closure, so here it is a value. `HandlerFunc = Terminal(endpoint) | Wrapped(mw, inner)`. A Go `Middleware` (middlewareAlias.go) is the map `h => Wrapped(m, h)`. `Trace` lists the middleware a request meets, outermost first. `Compose` is the reference composition: first listed is outermost.
- `routing.dfy` (`RouteValue`): the immutable `Route` datatype and its accessors. The Go field `method` is `methods` here, because `method` is a Dafny keyword.
- `builder.dfy` (`Builders`): the `Builder` class.
  - Its middleware list is an `array`.
  - `Build` calls `Concat`. `Concat` reverses that array in place, as `slices.Reverse` does, then folds it over the handler.
- `routing_definition.dfy` (`Definitions`): the `RoutingDefinition` class. Its object invariant says that every route runs the common middleware first.
- `registry.dfy` (`Registry`): the `ServeMux`, kept as an append-only log of `(pattern, handler)` registrations, and `MountRoute`.
- `service_builder.dfy` (`Services`): the `ServiceBuilder` class. A `Routing` contributor is modelled as a script that `Routes` runs against the definition it is given.
- `mount.dfy` (`Mounting`): `mount`, `Mount`, `MountServices`, `DynamicMount` and the body of `listenDynamicMounts`.
- `fixtures.dfy` (`Fixtures`): the test fixtures of common_test.go.
  - An interpreter `Run` gives handlers observable behaviour: a tag middleware pushes its value on a context stack, and `simpleHandler` answers 500 or the stack.
  - The test tables of builder_test.go and routingDefinition_test.go are stated as lemmas.

Parameters standing in for I/O: a request is reduced to its method, its optional basic-auth credentials and its optional context stack. What the dynamic-mount goroutine observes is a parameter: a sequence of `Received(route)` and `Cancelled` events.

## Model

| member | source | states |
|---|---|---|
| `Handlers.ComposeTrace` | routing.go:24-32 | composing `ms` over `h` gives a handler whose execution order is `ms` in the given order, then `h`'s own; the endpoint is unchanged |
| `Handlers.ComposeAppend` | builder.go:55-61 | composing `outer ++ inner` equals composing `inner` first and `outer` around it |
| `Handlers.Decompose` | middlewareAlias.go:8 | every handler is its trace composed over its endpoint |
| `Handlers.TraceDetermines` | middlewareAlias.go:8 | two handlers with the same trace and endpoint are equal |
| `Handlers.Reversed` | builder.go:56 | the reversal has the same length, and element `k` is element `n-1-k` of the input |
| `RouteValue.Route.Handler` | routing.go:33-35 | returns the handler component: the route is rebuilt from its methods, its path and the returned handler |
| `RouteValue.Route.Path` | routing.go:38-40 | returns the path component: the route is rebuilt from its methods, the returned path and its handler |
| `RouteValue.Route.Methods` | routing.go:43-45 | returns the methods component, in order: the route is rebuilt from the returned methods, its path and its handler |
| `RouteValue.AccessorsReturnFields` | routing.go:33-45 | `Methods()`, `Path()` and `Handler()` return exactly the stored methods (in order), path and handler |
| `RouteValue.AccessorsDetermineRoute` | routing.go:16-20 | a route is determined by its three accessors, and it has no mutators |
| `Builders.ReverseInPlace` | builder.go:56 | the array afterwards holds its old contents reversed |
| `Builders.Concat` | builder.go:55-61 | the array is left reversed, and the result is `Compose(h, old list)`: the first-listed middleware is outermost |
| `Builders.Builder.constructor` | builder.go:17-19 | methods are stored as given, with no check; the path is empty, the handler nil and the middleware list empty |
| `Builders.Builder.Path` | builder.go:22-25 | overwrites the path, changes nothing else, and returns the same builder |
| `Builders.Builder.Handler` | builder.go:28-31 | overwrites the handler, changes nothing else, and returns the same builder |
| `Builders.Builder.Middleware` | builder.go:40-46 | the new list is the old list followed by the arguments, in a fresh backing array; other fields are unchanged |
| `Builders.Builder.Build` | builder.go:50-53 | the handler field becomes the old handler composed with the old middleware list; the array is left reversed; the returned route has the builder's methods and path |
| `Builders.RebuildTrace` | builder.go:50-61 | building twice runs the reversed list, then the original list, then the handler; the second in-place reversal leaves the array in its original order |
| `Handlers.ReversedTwice` | builder.go:56 | reversing twice gives the list back, which is why a second `Build` restores the array's order |
| `Builders.BuildChain` | routing.go:26-32 | `NewBuilder(methods).Path(p).Handler(h).Middleware(ms).Build()` yields exactly the route with those methods and path and the handler `Compose(h, ms)`, whose trace is `ms ++ Trace(h)` (the first-listed middleware runs first) |
| `Definitions.ScopedRoute` | routingDefinition.go:47-53 | a route added in a scope keeps its methods and path and runs `common ++ extra`, then the handler |
| `Definitions.RoutingDefinition.constructor` | routingDefinition.go:30-34 | the common middleware is the given list, and there are no routes |
| `Definitions.RoutingDefinition.AddMany` | routingDefinition.go:47-56 | appends exactly one route, built with `common ++ extra`; earlier routes and the common middleware are unchanged; returns the same definition; keeps the invariant |
| `Definitions.RoutingDefinition.Add` | routingDefinition.go:42-44 | the same new state as `AddMany([verb], ...)` |
| `Definitions.RoutingDefinition.Detach` | routingDefinition.go:60-68 | returns a fresh definition with common middleware `parent ++ extra` and no routes; the parent is not modified |
| `Definitions.RoutingDefinition.Done` | routingDefinition.go:71-73 | returns the routes in insertion order |
| `Definitions.AddToDetached` | routingDefinition.go:58-68 | a route added to a detached child runs parent, then detach, then route middleware; the parent's routes and middleware are unchanged |
| `Definitions.ScopedRouteRunsCommonFirst` | routingDefinition.go:27-29 | the common middleware, and `common ++ extra`, are prefixes of every added route's trace |
| `Definitions.DetachedRouteIsParentRoute` | routingDefinition.go:60-63 | adding to a child detached with `d` is the same as adding to the parent with `d ++ extra` |
| `Definitions.EmptyScopeIsBare` | routingDefinition.go:47-53 | with no common and no extra middleware, the route's handler is the bare handler |
| `Registry.Pattern` | mount.go:11 | the pattern is the method, one space, then the path |
| `Registry.RouteRegistrations` | mount.go:9-14 | one registration per method, in method order, each with pattern `method + " " + path` and the route's handler |
| `Registry.RegistrationsOfAppend` | mount.go:54-58 | registering two route lists in sequence is registering their concatenation |
| `Registry.RegistrationsOfAt` | mount.go:54-58 | each route's registrations form one block, after those of earlier routes and before those of later ones |
| `Registry.RegistrationsOfSource` | mount.go:9-14 | every registration comes from some route, for one of its methods |
| `Registry.MultiMethodRoute` | mount.go:10-12 | a GET+POST route registers exactly two entries at the same path, both with the same handler |
| `Registry.ServeMux.constructor` | mount.go:53 | a new multiplexer has nothing registered |
| `Registry.ServeMux.HandleFunc` | mount.go:12 | appends one registration to the log |
| `Registry.MountRoute` | mount.go:9-14 | the log grows by exactly the route's registrations, in method order; an empty method list adds nothing |
| `Registry.MountRoutes` | mount.go:55-57 | the log grows by the registrations of the routes, in order |
| `Services.AddSpecs` | routingDefinition.go:47-56 | adding a list of routes appends them in order and keeps the invariant |
| `Services.Routes` | routing.go:7-9 | the definition ends up holding its earlier routes followed by the contributor's own routes, built with its middleware, and keeps its middleware and invariant; the contributor returns those routes, then each detached group's routes |
| `Services.ServiceBuilder.constructor` | serviceBuilder.go:7-12 | there are no contributors, and the middleware is exactly the given list |
| `Services.ServiceBuilder.Add` | serviceBuilder.go:19-22 | contributors are appended in argument order; the middleware is unchanged |
| `Services.ServiceBuilder.MW` | serviceBuilder.go:25-28 | middleware is appended after the existing middleware; the contributors are unchanged |
| `Services.ServiceBuilder.MountTo` | serviceBuilder.go:30-37 | the log grows by each contributor's routes in contributor order; each contributor's routes are built from a fresh definition seeded with `mws` as it is at the call, and are mounted in the order returned |
| `Services.ServiceRegistrationsAppend` | serviceBuilder.go:31-36 | mounting two contributor lists in sequence is mounting their concatenation |
| `Services.ContributorIsolation` | serviceBuilder.go:31-33 | what contributor `i` registers depends only on the service middleware and that contributor, and sits between the registrations of its neighbours |
| `Services.ContributedRoutesRunServiceFirst` | serviceBuilder.go:32 | every route a contributor returns runs the service middleware first |
| `Services.GroupRoutesRunFirst` | routingDefinition.go:60-68 | every route of a detached group runs the parent's common middleware first |
| `Mounting.MountDefinitions` | mount.go:52-60 | returns a fresh multiplexer holding every definition's `Done()` routes, in definition order and then route order |
| `Mounting.MountDefinitionsTo` | mount.go:54-58 | the log grows by every definition's `Done()` routes, definition after definition, each in route order |
| `Mounting.Mount` | mount.go:17-19 | registers exactly what `mount` registers |
| `Mounting.MountServices` | mount.go:22-28 | returns a fresh multiplexer, with `MountTo` run for each service in order |
| `Mounting.MountServicesTo` | mount.go:24-26 | the log grows by what each service's `MountTo` registers, service after service |
| `Mounting.ListenDynamicMounts` | mount.go:41-50 | registers the received routes one at a time, in receipt order, up to the first cancellation |
| `Mounting.DynamicMount` | mount.go:35-39 | the synchronous pass registers exactly what `mount` does; the received routes follow |
| `Mounting.NothingAfterCancel` | mount.go:44-45 | nothing that arrives after cancellation is registered |
| `Mounting.ReceivedIsRegistered` | mount.go:46-47 | before cancellation, a newly received route is registered after the earlier ones |
| `Fixtures.TestRequest` | common_test.go:14-15 | the request `testResponse` sends is a GET with no credentials and no context stack |
| `Fixtures.WithCtxValue` | common_test.go:35-49 | calls the inner handler once, with `val` appended to the stack (or a new stack `[val]`); the method and credentials are unchanged |
| `Fixtures.PreflightRequest` | common_test.go:92-99 | answers without calling the inner handler exactly when the method is OPTIONS; otherwise passes the request on unchanged |
| `Fixtures.BasicAuthCheck` | common_test.go:101-114 | 401 without credentials, 403 for credentials other than admin/admin; the inner handler is called exactly for admin/admin |
| `Fixtures.SimpleHandler` | common_test.go:26-33 | 500 exactly when there is no stack; otherwise the stack, as it is |
| `Fixtures.Tags` | common_test.go:51-57 | one tag middleware per value, in the same order |
| `Fixtures.BuildMiddlewares` | common_test.go:51-57 | the loop builds exactly `Tags(values)` |
| `Fixtures.TagsAppend` | common_test.go:51-57 | the tags of a concatenation are the concatenated tags |
| `Fixtures.TagsRun` | common_test.go:35-49 | tag middleware in front of `h` push their values in list order, then hand the request to `h` |
| `Fixtures.OrderObserved` | routing.go:24-32 | over `simpleHandler`, with no stack, tags `vs` answer `vs` in order, or 500 when `vs` is empty |
| `Fixtures.ReplyStopsChain` | common_test.go:92-114 | a middleware that answers stops the chain: nothing after it runs |
| `Fixtures.PreflightInFront` | common_test.go:92-99 | a preflight middleware in front returns for OPTIONS and is transparent otherwise |
| `Fixtures.BasicAuthInFront` | common_test.go:101-114 | a basic-auth middleware in front answers 401 or 403, or is transparent for admin/admin |
| `Fixtures.DefinitionWithCtxValues` | common_test.go:59-62 | a fresh definition with one tag per value as common middleware |
| `Fixtures.NewTestRoute` | common_test.go:68-72 | the single route `GET /testMiddleware` over `simpleHandler`, with the parent tags |
| `Fixtures.NewTestRouteWithMws` | common_test.go:74-79 | the same route, with the parent tags then the route tags |
| `Fixtures.NewHandlerWithMiddleware` | common_test.go:81-85 | always the route with tags 0, 1 and then 2, 3, whatever the arguments |
| `Fixtures.TestRouteAnswer` | common_test.go:14-22 | a test route answers the test request with the parent tags then the route tags, or 500 when there are none |
| `Fixtures.HandlerWithMiddlewareAnswer` | common_test.go:81-85 | that route answers `0,1,2,3` |
| `Fixtures.BuildWithoutMiddleware` | builder_test.go:63-72 | a builder with `simpleHandler` and no middleware yields the bare handler, which answers 500 |
| `Fixtures.BuilderBuildTable` | builder_test.go:63-72 | the unwrapped `simpleHandler` answers 500 |
| `Fixtures.RoutingDefinitionTable` | routingDefinition_test.go:20-38 | the table: none gives 500, `0` gives `0`, and `0,1,4,8` gives `0,1,4,8` |
| `Fixtures.RoutingDefinitionWithChildTable` | routingDefinition_test.go:78-105 | the table: none gives 500, `child` gives `child`, `1`/`0` gives `1,0`, and `0,1,4,8`/`10,11` gives `0,1,4,8,10,11` |
| `Fixtures.DetachedRouteAnswer` | routingDefinition.go:60-68 | a route in a detached child answers parent tags, then detach tags, then route tags |
| `Fixtures.GetMethodAsWrittenRejectsCorrectRoute` | builder_test.go:29 | the check as written reports an error on its own correct case |
| `Fixtures.GetMethodAcceptsStoredMethods` | builder_test.go:29-31 | the intended check passes a route holding exactly the expected methods, and fails any other |

## Left out

- `handlers/gin/ginHandler.go`, `handlers/goji/gojiHandler.go`: these adapters forward routes to third-party routers. They are not part of this model. They also depend on a module (`apibuilder`) that is not part of this model.
- `http.ServeMux` internals: pattern matching, dispatch, and the panics `HandleFunc` raises at registration time (a duplicate pattern, a malformed pattern, and a nil handler func, which is what a route whose handler was never set registers at mount.go:12). They belong to the multiplexer, which is kept here as an append-only log: `ServeMux.HandleFunc` records every registration.
- Concurrency in `DynamicMount`: the goroutine, the `select`, the channel and `ctx.Done()` are not modelled. Their observable order is a parameter, a sequence of received routes and cancellations. The model also does not capture the caller changing definitions while the goroutine runs.
- Go slice capacity aliasing (`append` reusing a backing array): middleware lists are value sequences. `Builder.Middleware` always allocates a fresh array. This is not observable, because the builder copies its list before `Build` reverses it.
- `Routing` contributors: Go allows arbitrary code behind this interface. The model covers one family of scripts: add routes to the given definition, detach child groups and add routes to them, then return the definition's routes followed by the children's routes.
- JSON encoding, `httptest` recorders, `context.WithValue` and `r.BasicAuth()` header parsing: a request is reduced to method, credentials and stack, and a response to what it carries. A handler or middleware known only by name answers `Unmodelled`, because its behaviour is not part of this model.
- Invoking a nil handler: Go panics when the nil func is called. The model answers `NilCall` instead, and says nothing about recovery.
- Nil pointers: `Mount` given a nil `*RoutingDefinition` panics inside `Done()`, and `MountServices` given a nil `*ServiceBuilder` panics inside `MountTo`. Dafny references in this model are never null.
- Slice sharing: four Go slices are shared, not copied, and the model does not capture a caller writing through them. `NewBuilder` (builder.go:17-19) keeps the caller's methods slice, so a later write to it changes the methods a mounted route registers. `Route.Methods()` (routing.go:43-45) returns the route's own slice. `RoutingDefinition.Done()` (routingDefinition.go:71-73) returns `routes` itself, so writing to the result replaces a stored route. `NewServiceBuilder` (serviceBuilder.go:10) keeps the caller's middleware slice as `mws`. In the model all four are value sequences.

## Findings

| source | as written | input that shows it | evidently intended | confidence | as-written member | corrected member |
|---|---|---|---|---|---|---|
| builder_test.go:29 | `if got := r.Methods(); reflect.DeepEqual(got, tt.want)` reports an error when the methods equal the expected ones | the test's own case: method `GET`, want `["GET"]`; `Methods()` returns `["GET"]`, so the test reports an error | `!reflect.DeepEqual(got, tt.want)` | high; not executed | `Fixtures.GetMethodAsWrittenRejectsCorrectRoute` | `Fixtures.GetMethodAcceptsStoredMethods` |
