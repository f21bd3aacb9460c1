/** The server composition of lib/server.ts. The web framework is abstracted to
    the sequence of calls the server makes on it: routes added to the router,
    middleware added to the application, and tasks handed to the registry.
    The route table and the middleware chain are read off that sequence. */
module Server {
  import opened Wrappers
  import opened Values
  import Jobba

  datatype Method = Get | Post | Put | Delete | Patch

  /** A request handler, by what it does: the default no-op, the `/routes`
      handler that serves a list of routes, or application code not modelled. */
  datatype Handler = NoOp | ListRoutes(routes: seq<Route>) | App(name: string)

  /** A route object; its `method` may be absent. */
  datatype Route = Route(path: string, verb: Option<Method>, handler: Handler, description: string)

  /** The first argument of `register`: a path string or a route object. */
  datatype RouteArg = Path(path: string) | Object(route: Route)

  /** One `router[method](path, handler)` call. */
  datatype RouteEntry = RouteEntry(verb: Method, path: string, handler: Handler)

  datatype Middleware = BodyParser | InjectContext | RouterRoutes | AllowedMethods

  /** One call the server makes on the router, the application or the registry. */
  datatype Step = AddRoute(entry: RouteEntry) | AddTask(task: Jobba.Task) | Use(middleware: Middleware)

  datatype Server = Server(trace: seq<Step>, jobba: Jobba.Jobba)

  /** A route object without a method: `method.toLowerCase()` throws. */
  datatype RegisterError = MethodUndefined(path: string)

  datatype Body = NoBody | RouteList(routes: seq<Route>) | Other(value: Value)

  /** The per-request context, as far as this layer touches it. */
  datatype Context = Context(server: Option<Server>, jobba: Option<Jobba.Jobba>, body: Body)

  // ---------------------------------------------------------------------------
  // Reading the route table, the middleware chain and the tasks off a trace

  function Routes(trace: seq<Step>): seq<RouteEntry> {
    if trace == [] then []
    else (if trace[0].AddRoute? then [trace[0].entry] else []) + Routes(trace[1..])
  }

  function Chain(trace: seq<Step>): seq<Middleware> {
    if trace == [] then []
    else (if trace[0].Use? then [trace[0].middleware] else []) + Chain(trace[1..])
  }

  function Tasks(trace: seq<Step>): seq<Jobba.Task> {
    if trace == [] then []
    else (if trace[0].AddTask? then [trace[0].task] else []) + Tasks(trace[1..])
  }

  // The three projections distribute over concatenation. Each gets its own
  // lemma with the same proof shape: one lemma for all three at once runs
  // past the verifier's resource limit.

  lemma {:induction false} RoutesAppend(a: seq<Step>, b: seq<Step>)
    ensures Routes(a + b) == Routes(a) + Routes(b)
  {
    if a == [] {
      assert a + b == b;
    } else {
      var head := if a[0].AddRoute? then [a[0].entry] else [];
      assert (a + b)[0] == a[0];
      assert (a + b)[1..] == a[1..] + b;
      assert Routes(a + b) == head + Routes(a[1..] + b);
      RoutesAppend(a[1..], b);
      assert Routes(a) == head + Routes(a[1..]);
    }
  }

  lemma {:induction false} ChainAppend(a: seq<Step>, b: seq<Step>)
    ensures Chain(a + b) == Chain(a) + Chain(b)
  {
    if a == [] {
      assert a + b == b;
    } else {
      var head := if a[0].Use? then [a[0].middleware] else [];
      assert (a + b)[0] == a[0];
      assert (a + b)[1..] == a[1..] + b;
      assert Chain(a + b) == head + Chain(a[1..] + b);
      ChainAppend(a[1..], b);
      assert Chain(a) == head + Chain(a[1..]);
    }
  }

  lemma {:induction false} TasksAppend(a: seq<Step>, b: seq<Step>)
    ensures Tasks(a + b) == Tasks(a) + Tasks(b)
  {
    if a == [] {
      assert a + b == b;
    } else {
      var head := if a[0].AddTask? then [a[0].task] else [];
      assert (a + b)[0] == a[0];
      assert (a + b)[1..] == a[1..] + b;
      assert Tasks(a + b) == head + Tasks(a[1..] + b);
      TasksAppend(a[1..], b);
      assert Tasks(a) == head + Tasks(a[1..]);
    }
  }

  lemma ProjectAppend(a: seq<Step>, b: seq<Step>)
    ensures Routes(a + b) == Routes(a) + Routes(b)
    ensures Chain(a + b) == Chain(a) + Chain(b)
    ensures Tasks(a + b) == Tasks(a) + Tasks(b)
  {
    RoutesAppend(a, b);
    ChainAppend(a, b);
    TasksAppend(a, b);
  }

  // ---------------------------------------------------------------------------
  // Reference definitions for initialisation

  predicate AllHaveMethods(rs: seq<Route>) {
    forall i :: 0 <= i < |rs| ==> rs[i].verb.Some?
  }

  /** Route `i` is the first one without a method. */
  predicate FirstWithoutMethod(rs: seq<Route>, i: int) {
    0 <= i < |rs| && rs[i].verb.None? && AllHaveMethods(rs[..i])
  }

  /** The router call a route object with a method turns into. */
  function EntryOf(r: Route): RouteEntry
    requires r.verb.Some?
  {
    RouteEntry(r.verb.value, r.path, r.handler)
  }

  function RouteSteps(rs: seq<Route>): seq<Step>
    requires AllHaveMethods(rs)
  {
    seq(|rs|, i requires 0 <= i < |rs| => AddRoute(EntryOf(rs[i])))
  }

  function TaskSteps(tasks: seq<Jobba.Task>): seq<Step> {
    seq(|tasks|, i requires 0 <= i < |tasks| => AddTask(tasks[i]))
  }

  /** The synthetic introspection route added after the application routes. */
  function RoutesEndpoint(rs: seq<Route>): RouteEntry {
    RouteEntry(Get, "/routes", ListRoutes(rs))
  }

  /** The middleware `init` installs, in order. */
  function Stack(): seq<Step> {
    [Use(BodyParser), Use(InjectContext), Use(RouterRoutes), Use(AllowedMethods)]
  }

  // ---------------------------------------------------------------------------
  // Operations

  /** `register(route, method = Get, handler = noop)`: a path string is added
      with the given or default method and handler; a route object supplies
      path, method and handler itself and the positional arguments are
      ignored. Exactly one route is appended and nothing else changes. */
  function Register(s: Server, route: RouteArg, verb: Option<Method>, handler: Option<Handler>): (r: Result<Server, RegisterError>)
    ensures r.Failure? <==> route.Object? && route.route.verb.None?
    ensures r.Failure? ==> r.error == MethodUndefined(route.route.path)
    ensures r.Success? ==>
      && r.value.jobba == s.jobba
      && |r.value.trace| == |s.trace| + 1
      && r.value.trace[..|s.trace|] == s.trace
      && r.value.trace[|s.trace|].AddRoute?
    ensures r.Success? && route.Path? ==>
      var e := r.value.trace[|s.trace|].entry;
      && e.path == route.path
      && e.verb == (if verb.Some? then verb.value else Get)
      && e.handler == (if handler.Some? then handler.value else NoOp)
    ensures r.Success? && route.Object? ==>
      var e := r.value.trace[|s.trace|].entry;
      e.path == route.route.path && Some(e.verb) == route.route.verb && e.handler == route.route.handler
  {
    match route
    case Path(p) =>
      Success(s.(trace := s.trace + [AddRoute(RouteEntry(verb.GetOr(Get), p, handler.GetOr(NoOp)))]))
    case Object(obj) =>
      if obj.verb.None? then Failure(MethodUndefined(obj.path))
      else Success(s.(trace := s.trace + [AddRoute(EntryOf(obj))]))
  }

  /** `initRoutes(routes)`: each route object in input order, then `GET /routes`
      serving exactly the input list. The first route without a method aborts
      with its path. */
  method InitRoutes(s: Server, rs: seq<Route>) returns (r: Result<Server, RegisterError>)
    ensures r.Success? <==> AllHaveMethods(rs)
    ensures r.Success? ==>
      && r.value.jobba == s.jobba
      && r.value.trace == s.trace + RouteSteps(rs) + [AddRoute(RoutesEndpoint(rs))]
    ensures r.Failure? ==> exists i :: FirstWithoutMethod(rs, i) && r.error == MethodUndefined(rs[i].path)
  {
    var cur := s;
    var i := 0;
    while i < |rs|
      invariant 0 <= i <= |rs|
      invariant AllHaveMethods(rs[..i])
      invariant cur.jobba == s.jobba
      invariant cur.trace == s.trace + RouteSteps(rs[..i])
    {
      var res := Register(cur, Object(rs[i]), None, None);
      if res.Failure? {
        return Failure(res.error);
      }
      assert rs[..i + 1] == rs[..i] + [rs[i]];
      assert RouteSteps(rs[..i + 1]) == RouteSteps(rs[..i]) + [AddRoute(EntryOf(rs[i]))];
      cur := res.value;
      i := i + 1;
    }
    assert rs[..i] == rs;
    r := Register(cur, Path("/routes"), Some(Get), Some(ListRoutes(rs)));
    assert r.value.trace == cur.trace + [AddRoute(RoutesEndpoint(rs))];
  }

  /** `initTasks(tasks)`: each task handed to the registry in input order;
      afterwards every task id is registered. */
  method InitTasks(s: Server, tasks: seq<Jobba.Task>) returns (r: Server)
    ensures r.jobba == Jobba.RegisterAll(s.jobba, tasks)
    ensures r.trace == s.trace + TaskSteps(tasks)
    ensures r.jobba.queues.Keys == s.jobba.queues.Keys + Jobba.Ids(tasks)
  {
    r := s;
    var i := 0;
    while i < |tasks|
      invariant 0 <= i <= |tasks|
      invariant r.jobba == Jobba.RegisterAll(s.jobba, tasks[..i])
      invariant r.trace == s.trace + TaskSteps(tasks[..i])
    {
      var t := tasks[i];
      assert tasks[..i + 1][..i] == tasks[..i];
      assert TaskSteps(tasks[..i + 1]) == TaskSteps(tasks[..i]) + [AddTask(t)];
      r := Server(r.trace + [AddTask(t)], Jobba.Register(r.jobba, t.id, t.fn, t.options));
      i := i + 1;
    }
    assert tasks[..i] == tasks;
    Jobba.RegisterAllDomain(s.jobba, tasks);
  }

  /** `init(tasks)`: routes, then tasks, then body parsing, context injection,
      the router's routes and its allowed-methods handler, in that order. */
  method Init(s: Server, rs: seq<Route>, tasks: seq<Jobba.Task>) returns (r: Result<Server, RegisterError>)
    ensures r.Success? <==> AllHaveMethods(rs)
    ensures r.Success? ==>
      && r.value.trace == s.trace + RouteSteps(rs) + [AddRoute(RoutesEndpoint(rs))] + TaskSteps(tasks) + Stack()
      && r.value.jobba == Jobba.RegisterAll(s.jobba, tasks)
    ensures r.Failure? ==> exists i :: FirstWithoutMethod(rs, i) && r.error == MethodUndefined(rs[i].path)
  {
    var routed := InitRoutes(s, rs);
    if routed.Failure? {
      return routed;
    }
    var tasked := InitTasks(routed.value, tasks);
    r := Success(tasked.(trace := tasked.trace + Stack()));
  }

  /** `new Server(tasks)`: an empty router and application, a registry built
      without config, then `init`. The route list is a parameter because the
      module it comes from is not part of this model. */
  method New(rs: seq<Route>, tasks: seq<Jobba.Task>) returns (r: Result<Server, RegisterError>)
    ensures r.Success? <==> AllHaveMethods(rs)
    ensures r.Success? ==>
      && |Routes(r.value.trace)| == |rs| + 1
      && (forall i :: 0 <= i < |rs| ==> Routes(r.value.trace)[i] == EntryOf(rs[i]))
      && Routes(r.value.trace)[|rs|] == RoutesEndpoint(rs)
      && Chain(r.value.trace) == [BodyParser, InjectContext, RouterRoutes, AllowedMethods]
      && Tasks(r.value.trace) == tasks
      && r.value.jobba.queues.Keys == Jobba.Ids(tasks)
      && Jobba.WellFormed(r.value.jobba)
    ensures r.Success? ==>
      && r.value.trace == RouteSteps(rs) + [AddRoute(RoutesEndpoint(rs))] + TaskSteps(tasks) + Stack()
      && r.value.jobba == Jobba.RegisterAll(Jobba.New(Undefined), tasks)
      && r.value.jobba.config == Undefined
  {
    var empty := Jobba.New(Undefined);
    r := Init(Server([], empty), rs, tasks);
    if r.Success? {
      assert r.value.trace == RouteSteps(rs) + [AddRoute(RoutesEndpoint(rs))] + TaskSteps(tasks) + Stack();
      InitLayout(rs, tasks);
      Jobba.RegisterAllDomain(empty, tasks);
    }
  }

  /** The context-injection middleware: `ctx.server` and `ctx.jobba` are set
      to the server and its registry, the rest of the context is kept, and
      `next` is called exactly once, with the injected context. Returns the
      injected context and the contexts `next` was called with. */
  function Inject(s: Server, ctx: Context): (r: (Context, seq<Context>))
    ensures r.0.server == Some(s) && r.0.jobba == Some(s.jobba)
    ensures r.0.body == ctx.body
    ensures |r.1| == 1 && r.1[0] == r.0
  {
    var injected := ctx.(server := Some(s), jobba := Some(s.jobba));
    (injected, [injected])
  }

  /** Running a handler this layer defines: the no-op leaves the context as
      it is; the `/routes` handler sets the response body to its route list. */
  function Invoke(h: Handler, ctx: Context): (r: Context)
    requires !h.App?
    ensures h.NoOp? ==> r == ctx
    ensures h.ListRoutes? ==> r.body == RouteList(h.routes) && r.server == ctx.server && r.jobba == ctx.jobba
  {
    match h
    case NoOp => ctx
    case ListRoutes(rs) => ctx.(body := RouteList(rs))
  }

  // ---------------------------------------------------------------------------
  // Properties

  /** Registering appends exactly one entry to the route table, keeps the
      earlier entries in order and leaves the middleware and tasks alone. */
  lemma RegisterAppendsOneRoute(s: Server, route: RouteArg, verb: Option<Method>, handler: Option<Handler>)
    requires Register(s, route, verb, handler).Success?
    ensures var t := Register(s, route, verb, handler).value.trace;
      && |Routes(t)| == |Routes(s.trace)| + 1
      && Routes(t)[..|Routes(s.trace)|] == Routes(s.trace)
      && Chain(t) == Chain(s.trace)
      && Tasks(t) == Tasks(s.trace)
  {
    var t := Register(s, route, verb, handler).value.trace;
    assert t == s.trace + [t[|s.trace|]];
    ProjectAppend(s.trace, [t[|s.trace|]]);
    assert [t[|s.trace|]][1..] == [];
  }

  /** A route object's own method and handler are used, whatever positional
      arguments come with it. */
  lemma ObjectIgnoresPositional(s: Server, obj: Route, m1: Option<Method>, h1: Option<Handler>, m2: Option<Method>, h2: Option<Handler>)
    ensures Register(s, Object(obj), m1, h1) == Register(s, Object(obj), m2, h2)
  {
  }

  lemma {:induction false} RouteStepsProject(rs: seq<Route>)
    requires AllHaveMethods(rs)
    ensures |Routes(RouteSteps(rs))| == |rs|
    ensures forall i :: 0 <= i < |rs| ==> Routes(RouteSteps(rs))[i] == EntryOf(rs[i])
    ensures Chain(RouteSteps(rs)) == [] && Tasks(RouteSteps(rs)) == []
  {
    if rs != [] {
      assert RouteSteps(rs)[1..] == RouteSteps(rs[1..]);
      RouteStepsProject(rs[1..]);
    }
  }

  lemma {:induction false} TaskStepsProject(tasks: seq<Jobba.Task>)
    ensures Tasks(TaskSteps(tasks)) == tasks
    ensures Routes(TaskSteps(tasks)) == [] && Chain(TaskSteps(tasks)) == []
  {
    if tasks != [] {
      assert TaskSteps(tasks)[1..] == TaskSteps(tasks[1..]);
      TaskStepsProject(tasks[1..]);
    }
  }

  /** The layout `init` produces on a fresh server: the application routes in
      input order, then `GET /routes` as the last route; the four middleware
      in their fixed order; the tasks in input order. */
  lemma InitLayout(rs: seq<Route>, tasks: seq<Jobba.Task>)
    requires AllHaveMethods(rs)
    ensures var t := RouteSteps(rs) + [AddRoute(RoutesEndpoint(rs))] + TaskSteps(tasks) + Stack();
      && |Routes(t)| == |rs| + 1
      && (forall i :: 0 <= i < |rs| ==> Routes(t)[i] == EntryOf(rs[i]))
      && Routes(t)[|rs|] == RoutesEndpoint(rs)
      && Chain(t) == [BodyParser, InjectContext, RouterRoutes, AllowedMethods]
      && Tasks(t) == tasks
  {
    var a := RouteSteps(rs);
    var b := [AddRoute(RoutesEndpoint(rs))];
    var c := TaskSteps(tasks);
    var d := Stack();
    ProjectAppend(a, b);
    ProjectAppend(a + b, c);
    ProjectAppend(a + b + c, d);
    RouteStepsProject(rs);
    TaskStepsProject(tasks);
    assert b[1..] == [];
    assert Routes(b) == [RoutesEndpoint(rs)];
    assert Routes(d) == [] && Tasks(d) == [];
    assert Chain(d) == [BodyParser, InjectContext, RouterRoutes, AllowedMethods] by {
      assert d[1..] == [Use(InjectContext), Use(RouterRoutes), Use(AllowedMethods)];
      assert d[1..][1..] == [Use(RouterRoutes), Use(AllowedMethods)];
      assert d[1..][1..][1..] == [Use(AllowedMethods)];
      assert d[1..][1..][1..][1..] == [];
    }
  }

  /** The `/routes` handler answers with exactly the list it was built from,
      so it never lists itself. */
  lemma RoutesEndpointServesInput(rs: seq<Route>, ctx: Context)
    ensures RoutesEndpoint(rs).verb == Get && RoutesEndpoint(rs).path == "/routes"
    ensures Invoke(RoutesEndpoint(rs).handler, ctx).body == RouteList(rs)
    ensures |Invoke(RoutesEndpoint(rs).handler, ctx).body.routes| == |rs|
  {
  }
}
