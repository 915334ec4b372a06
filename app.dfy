/**
 * app.ts: the server built by createServer. It installs the response
 * interceptor first, keeps the registry of auto-registered routers, and
 * mounts them on `listen`.
 */
module App {
  import opened Wrappers
  import opened Values
  import opened Platform
  import opened Utils
  import opened Routing

  /**
   * The interceptor installed first by createServer: a raised response is
   * copied onto the context and the request completes normally; any other
   * raised value is raised again unchanged.
   */
  function Intercept(ctx: Context, next: Next): (r: Outcome)
    ensures next(ctx).Completed? ==> r == next(ctx)
    ensures next(ctx).Raised? && next(ctx).signal.Respond? ==>
              r == Completed(ResToCtx(next(ctx).signal.response, next(ctx).ctx))
    ensures next(ctx).Raised? && !next(ctx).signal.Respond? ==> r == next(ctx)
    ensures !(r.Raised? && r.signal.Respond?)
  {
    match next(ctx)
    case Completed(c) => Completed(c)
    case Raised(c, Respond(res)) => Completed(ResToCtx(res, c))
    case Raised(c, other) => Raised(c, other)
  }

  /** The options of serveStatic (only the root and the path are kept). */
  datatype StaticOptions = StaticOptions(root: string, path: Option<string>)

  /** The framework's `ctx.send(options)`. */
  type Send = (StaticOptions, Context) -> Outcome

  /**
   * The middleware of serveStatic: the file `send` serves, or, when `send`
   * raises anything, the rest of the chain, called exactly once.
   */
  function ServeStatic(send: Send, options: StaticOptions, ctx: Context, next: Next): (r: Outcome)
    ensures send(options, ctx).Completed? ==> r == send(options, ctx)
    ensures send(options, ctx).Raised? ==> r == next(send(options, ctx).ctx)
  {
    match send(options, ctx)
    case Completed(c) => Completed(c)
    case Raised(c, _) => next(c)
  }

  /** When serving succeeds, the rest of the chain is never called: the outcome does not depend on it. */
  lemma ServeStaticSkipsNextOnSuccess(send: Send, options: StaticOptions, ctx: Context, next: Next, other: Next)
    requires send(options, ctx).Completed?
    ensures ServeStatic(send, options, ctx, next) == ServeStatic(send, options, ctx, other)
    ensures ServeStatic(send, options, ctx, next).Completed?
  {
  }

  /** The middleware installed on the oak application, in order. */
  datatype AppMiddleware =
    | Interceptor
    | UserMiddleware(run: (Context, Next) -> Outcome)
    | StaticFiles(options: StaticOptions)
    | RouterPart(part: RouterMiddleware)

  function UserMiddlewares(ms: seq<(Context, Next) -> Outcome>): (r: seq<AppMiddleware>)
    ensures |r| == |ms| && forall i :: 0 <= i < |ms| ==> r[i] == UserMiddleware(ms[i])
  {
    seq(|ms|, i requires 0 <= i < |ms| => UserMiddleware(ms[i]))
  }

  /** What listen installs: for each router, in order, its routes() and then its allowedMethods(). */
  function MountAll(routers: seq<Router>): (m: seq<AppMiddleware>)
    ensures |m| == 2 * |routers|
    ensures forall x :: x in m ==> x.RouterPart?
  {
    if routers == [] then []
    else
      var last := routers[|routers| - 1];
      MountAll(routers[..|routers| - 1]) + [RouterPart(RoutesOf(last)), RouterPart(AllowedMethodsOf(last))]
  }

  /** Router i's routes() sits at position 2i and its allowedMethods() right after; nothing else is mounted. */
  lemma {:induction false} MountAllLayout(routers: seq<Router>)
    ensures |MountAll(routers)| == 2 * |routers|
    ensures forall i :: 0 <= i < |routers| ==>
              MountAll(routers)[2 * i] == RouterPart(RoutesOf(routers[i])) &&
              MountAll(routers)[2 * i + 1] == RouterPart(AllowedMethodsOf(routers[i]))
    ensures forall m :: m in MountAll(routers) ==> m.RouterPart?
    decreases |routers|
  {
    if routers != [] {
      MountAllLayout(routers[..|routers| - 1]);
    }
  }

  /** A router's routes are mounted exactly when it is in the registry. */
  lemma {:induction false} MountedIff(routers: seq<Router>, r: Router)
    ensures RouterPart(RoutesOf(r)) in MountAll(routers) <==> r in routers
    ensures RouterPart(AllowedMethodsOf(r)) in MountAll(routers) <==> r in routers
    decreases |routers|
  {
    if routers != [] {
      var init := routers[..|routers| - 1];
      MountedIff(init, r);
      assert routers == init + [routers[|routers| - 1]];
    }
  }

  /** Whether createRouter keeps a router in the registry: unless `autoRegister` is exactly false. */
  predicate AutoRegisters(options: Option<RouterOptions>): (b: bool)
    ensures !b <==> options.Some? && options.value.autoRegister == Some(false)
    ensures options.Some? && options.value.autoRegister.None? ==> b
  {
    options.None? || options.value.autoRegister != Some(false)
  }

  datatype ListenOptions = ListenOptions(hostname: Option<string>, port: Option<int>)

  /** The event oak reports once listening: the effective host name and port. */
  datatype ListenEvent = ListenEvent(hostname: string, port: int)

  datatype ListenHandler = DefaultOnListenHandler | CustomListenHandler(callback: ListenEvent -> ())

  /** The host defaultOnListenHandler displays: the wildcard address shows as "localhost". */
  function DisplayHost(hostname: string): (host: string)
    ensures host != "0.0.0.0"
    ensures host == hostname <==> hostname != "0.0.0.0"
    ensures host != hostname ==> host == "localhost"
  {
    if hostname == "0.0.0.0" then "localhost" else hostname
  }

  /** The server object createServer returns. */
  class Server {
    /** The oak application's middleware, in installation order. */
    var chain: seq<AppMiddleware>
    /** The routers to mount at listen time, in creation order. */
    var routers: seq<Router>
    /** The handlers registered for the application's "listen" event. */
    var listeners: seq<ListenHandler>
    /** The options of each `app.listen` call. */
    var listenCalls: seq<Option<ListenOptions>>

    /** The interceptor is installed first, and only once. */
    ghost predicate Valid()
      reads this
    {
      |chain| > 0 && chain[0].Interceptor? && forall i :: 1 <= i < |chain| ==> !chain[i].Interceptor?
    }

    /** createServer: the application starts with the interceptor alone, and the registry is empty. */
    constructor ()
      ensures Valid()
      ensures chain == [Interceptor] && routers == [] && listeners == [] && listenCalls == []
    {
      chain := [Interceptor];
      routers := [];
      listeners := [];
      listenCalls := [];
    }

    /** use: appends the middlewares to the application in order and returns this server. */
    method Use(middleware: (Context, Next) -> Outcome, middlewares: seq<(Context, Next) -> Outcome>) returns (s: Server)
      requires Valid()
      modifies this
      ensures Valid() && s == this
      ensures chain == old(chain) + UserMiddlewares([middleware] + middlewares)
      ensures routers == old(routers) && listeners == old(listeners) && listenCalls == old(listenCalls)
    {
      chain := chain + UserMiddlewares([middleware] + middlewares);
      s := this;
    }

    /** createRouter: a new router, appended to the registry unless `autoRegister` is false. */
    method CreateRouter(options: Option<RouterOptions>) returns (r: Router)
      requires Valid()
      modifies this
      ensures Valid() && fresh(r) && r.options == options && r.registrations == []
      ensures AutoRegisters(options) ==> routers == old(routers) + [r]
      ensures !AutoRegisters(options) ==> routers == old(routers)
      ensures chain == old(chain) && listeners == old(listeners) && listenCalls == old(listenCalls)
    {
      r := new Router(options);
      if AutoRegisters(options) {
        routers := routers + [r];
      }
    }

    /** serveStatic: appends the static-file middleware to the application. */
    method ServeStatic(options: StaticOptions)
      requires Valid()
      modifies this
      ensures Valid() && chain == old(chain) + [StaticFiles(options)]
      ensures routers == old(routers) && listeners == old(listeners) && listenCalls == old(listenCalls)
    {
      chain := chain + [StaticFiles(options)];
    }

    /**
     * listen: mounts every registered router, in creation order, routes() then
     * allowedMethods(); registers the listen handler (by default
     * defaultOnListenHandler); starts the application.
     */
    method Listen(options: Option<ListenOptions>, onListen: Option<ListenHandler>)
      requires Valid()
      modifies this
      ensures Valid() && chain == old(chain) + MountAll(routers)
      ensures routers == old(routers)
      ensures listeners == old(listeners) + [onListen.GetOr(DefaultOnListenHandler)]
      ensures listenCalls == old(listenCalls) + [options]
    {
      var rs := routers;
      for i := 0 to |rs|
        invariant routers == rs && listeners == old(listeners) && listenCalls == old(listenCalls)
        invariant chain == old(chain) + MountAll(rs[..i])
      {
        assert rs[..i + 1][..i] == rs[..i];
        chain := chain + [RouterPart(rs[i].Routes()), RouterPart(rs[i].AllowedMethods())];
      }
      assert rs[..|rs|] == rs;
      MountAllLayout(rs);
      forall j | 1 <= j < |chain| ensures !chain[j].Interceptor? {
        if j >= |old(chain)| {
          assert chain[j] in MountAll(rs);
        }
      }
      listeners := listeners + [onListen.GetOr(DefaultOnListenHandler)];
      listenCalls := listenCalls + [options];
    }
  }

  /** What the framework does with what this layer cannot see: sending files and running a router's middleware. */
  datatype Framework = Framework(send: Send, dispatch: (RouterMiddleware, Context, Next) -> Outcome)

  function RunAppMiddleware(fw: Framework, m: AppMiddleware, ctx: Context, next: Next): Outcome {
    match m
    case Interceptor => Intercept(ctx, next)
    case UserMiddleware(f) => f(ctx, next)
    case StaticFiles(o) => ServeStatic(fw.send, o, ctx, next)
    case RouterPart(p) => fw.dispatch(p, ctx, next)
  }

  /** How the oak application runs its middleware: each one's `next` runs the rest. */
  function RunApp(fw: Framework, chain: seq<AppMiddleware>, ctx: Context, next: Next): Outcome
    decreases |chain|
  {
    if chain == [] then next(ctx)
    else RunAppMiddleware(fw, chain[0], ctx, c => RunApp(fw, chain[1..], c, next))
  }

  /** With the interceptor first, no raised response ever leaves the application. */
  lemma NoResponseEscapes(fw: Framework, chain: seq<AppMiddleware>, ctx: Context, next: Next)
    requires |chain| > 0 && chain[0].Interceptor?
    ensures !(RunApp(fw, chain, ctx, next).Raised? && RunApp(fw, chain, ctx, next).signal.Respond?)
  {
  }

  /** A server built by createServer and its methods never lets a raised response leave its application. */
  lemma ServerNoResponseEscapes(s: Server, fw: Framework, ctx: Context, next: Next)
    requires s.Valid()
    ensures !(RunApp(fw, s.chain, ctx, next).Raised? && RunApp(fw, s.chain, ctx, next).signal.Respond?)
  {
    NoResponseEscapes(fw, s.chain, ctx, next);
  }

  /**
   * A request to a route registered through a builder whose chain `vs` fails
   * with a response: behind the interceptor the request completes, with that
   * response copied onto the context as the failing validator left it.
   */
  lemma RejectedRouteResponds(vs: seq<BodyValidator>, handler: Middleware, rest: seq<Middleware>, ctx: Context, next: Next)
    requires |vs| > 0 && Pipeline(vs, ctx).Raised? && Pipeline(vs, ctx).signal.Respond?
    ensures Intercept(ctx, c => Compose([Validation(Chain(vs)), handler] + rest, c, next)) ==
              Completed(ResToCtx(Pipeline(vs, ctx).signal.response, Pipeline(vs, ctx).ctx))
  {
    ValidatedRouteRuns(vs, handler, rest, ctx, next);
  }

  /**
   * The schema-failure case end to end: a body the schema rejects, with no
   * `onErr`, ends the request with status 400 and the failure envelope of the
   * field errors; the handler never runs, so the outcome is the same
   * whatever the handler, the rest of the route and `next` are.
   */
  lemma SchemaFailureGives400(v: BodyValidator, handler: Middleware, rest: seq<Middleware>, ctx: Context, next: Next)
    requires v.options.onErr.None?
    requires ReadBody(v.options, ctx).Returned? && v.schema(ReadBody(v.options, ctx).value).Rejected?
    ensures var err := v.schema(ReadBody(v.options, ctx).value).error;
            var out := Intercept(ctx, c => Compose([Validation(Chain([v])), handler] + rest, c, next));
            out.Completed? && out.ctx.response.status == 400 && out.ctx.state == ctx.state &&
            ReadEnvelope(out.ctx.response.body) == Some(Envelope(true, FieldErrorsValue(err.fieldErrors), Null))
    ensures var err := v.schema(ReadBody(v.options, ctx).value).error;
            Intercept(ctx, c => Compose([Validation(Chain([v])), handler] + rest, c, next)) ==
              Completed(ResToCtx(Reject(None, err).response, ctx))
  {
    RejectedRouteResponds([v], handler, rest, ctx, next);
  }

  /**
   * The finding at utils.ts:97: with an async `onErr`, the code as written
   * throws the promise, which the interceptor does not recognise as a
   * response and raises again; awaiting it delivers the handler's response.
   */
  lemma AsyncOnErrEscapesInterceptor(ctx: Context, res: Response, err: ZodError)
    ensures var onErr := Some((e: ZodError) => Later(Some(res)));
            Intercept(ctx, c => Raised(c, RejectAsWritten(onErr, err))) == Raised(ctx, ThrownPromise(Some(res))) &&
            Intercept(ctx, c => Raised(c, Reject(onErr, err))) == Completed(ResToCtx(res, ctx))
  {
  }

  /** A router created with `autoRegister: false` is never mounted by listen. */
  method OptOutRouterIsNotMounted() returns (s: Server, r: Router)
    ensures s.routers == [] && RouterPart(RoutesOf(r)) !in s.chain && RouterPart(AllowedMethodsOf(r)) !in s.chain
  {
    s := new Server();
    r := s.CreateRouter(Some(RouterOptions(None, Some(false))));
    s.Listen(None, None);
  }
}
