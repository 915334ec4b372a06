/**
 * router.ts: a Router that forwards registrations to the wrapped oak router,
 * and the ValidatedRoute builder that puts accumulated body validators in
 * front of a route's handlers.
 */
module Routing {
  import opened Wrappers
  import opened Platform
  import opened Utils

  /**
   * The validator a builder holds: one validateBody middleware, or the closure
   * ValidatedRoute.input builds, which runs `first` and, from its `next`, `second`.
   */
  datatype Validator = Validate(body: BodyValidator) | Then(first: Validator, second: Validator)

  /**
   * The closure semantics of a builder's validator (router.ts:206-210). A
   * validator never completes a request by itself: it raises, or its outcome
   * is that of `next`.
   */
  function RunValidator(v: Validator, ctx: Context, next: Next): (r: Outcome)
    ensures r.Completed? ==> exists c :: r == next(c)
    decreases v
  {
    match v
    case Validate(b) => ValidateBody(b, ctx, next)
    case Then(first, second) => RunValidator(first, ctx, c => RunValidator(second, c, next))
  }

  /** The outcome of a validator alone, with nothing after it. */
  function Validated(v: Validator, ctx: Context): Outcome {
    RunValidator(v, ctx, Finish)
  }

  /**
   * Every builder validator uses its continuation linearly: it calls `next` at
   * most once, as its last step, and only with the context it validated.
   */
  lemma {:induction false} RunIsBind(v: Validator, ctx: Context, next: Next)
    ensures RunValidator(v, ctx, next) == Continue(Validated(v, ctx), next)
    decreases v
  {
    match v
    case Validate(b) =>
    case Then(first, second) =>
      var k := c => RunValidator(second, c, next);
      var kFinish := c => RunValidator(second, c, Finish);
      RunIsBind(first, ctx, k);
      RunIsBind(first, ctx, kFinish);
      var o := Validated(first, ctx);
      if o.Completed? {
        RunIsBind(second, o.ctx, next);
      }
  }

  /**
   * ValidatedRoute.input: the new validator runs the old one first; the new one
   * runs only if the old one calls its continuation, and it receives the original `next`.
   */
  lemma InputRunsInOrder(old_: Validator, new_: Validator, ctx: Context, next: Next)
    ensures Validated(old_, ctx).Completed? ==>
              RunValidator(Then(old_, new_), ctx, next) == RunValidator(new_, Validated(old_, ctx).ctx, next)
    ensures Validated(old_, ctx).Raised? ==> RunValidator(Then(old_, new_), ctx, next) == Validated(old_, ctx)
  {
    RunIsBind(old_, ctx, c => RunValidator(new_, c, next));
  }

  /** The validator of `router.input(vs[0]).input(vs[1])...input(vs[k-1])`. */
  function Chain(vs: seq<BodyValidator>): Validator
    requires |vs| > 0
  {
    if |vs| == 1 then Validate(vs[0]) else Then(Chain(vs[..|vs| - 1]), Validate(vs[|vs| - 1]))
  }

  /** One more `input` call extends the chain by one validator. */
  lemma ChainSnoc(vs: seq<BodyValidator>, v: BodyValidator)
    requires |vs| > 0
    ensures Chain(vs + [v]) == Then(Chain(vs), Validate(v))
  {
    assert (vs + [v])[..|vs|] == vs;
  }

  /** Running body validators one after another, left to right, stopping at the first that raises. */
  function Pipeline(vs: seq<BodyValidator>, ctx: Context): Outcome {
    if vs == [] then Completed(ctx)
    else
      match Admit(vs[0], ctx)
      case Completed(c) => Pipeline(vs[1..], c)
      case Raised(_, _) => Admit(vs[0], ctx)
  }

  lemma {:induction false} PipelineAppend(p: seq<BodyValidator>, q: seq<BodyValidator>, ctx: Context)
    ensures Pipeline(p + q, ctx) == if Pipeline(p, ctx).Completed? then Pipeline(q, Pipeline(p, ctx).ctx) else Pipeline(p, ctx)
    decreases |p|
  {
    if p == [] {
      assert p + q == q;
    } else {
      assert (p + q)[0] == p[0] && (p + q)[1..] == p[1..] + q;
      var o := Admit(p[0], ctx);
      if o.Completed? {
        PipelineAppend(p[1..], q, o.ctx);
      }
    }
  }

  /** A chain built by k calls of `input` validates exactly as the left-to-right pipeline. */
  lemma {:induction false} ChainIsPipeline(vs: seq<BodyValidator>, ctx: Context)
    requires |vs| > 0
    ensures Validated(Chain(vs), ctx) == Pipeline(vs, ctx)
    decreases |vs|
  {
    var last := vs[|vs| - 1];
    if |vs| == 1 {
      assert Pipeline(vs[1..], Admit(last, ctx).ctx) == Completed(Admit(last, ctx).ctx);
    } else {
      var init := vs[..|vs| - 1];
      assert vs == init + [last];
      ChainIsPipeline(init, ctx);
      InputRunsInOrder(Chain(init), Validate(last), ctx, Finish);
      PipelineAppend(init, [last], ctx);
      var o := Pipeline(init, ctx);
      if o.Completed? {
        assert [last][1..] == [];
        assert Pipeline([], Admit(last, o.ctx).ctx) == Completed(Admit(last, o.ctx).ctx);
      }
    }
  }

  /** A chain whose first n validators succeed, followed by one more that succeeds, succeeds. */
  lemma LastValidatorCompletes(vs: seq<BodyValidator>, ctx: Context)
    requires |vs| > 0 && Pipeline(vs[..|vs| - 1], ctx).Completed?
    requires Admit(vs[|vs| - 1], Pipeline(vs[..|vs| - 1], ctx).ctx).Completed?
    ensures Pipeline(vs, ctx).Completed?
  {
    var n := |vs| - 1;
    assert vs == vs[..n] + [vs[n]];
    PipelineAppend(vs[..n], [vs[n]], ctx);
    var c := Pipeline(vs[..n], ctx).ctx;
    assert [vs[n]][0] == vs[n] && [vs[n]][1..] == [];
    assert Pipeline([vs[n]], c) == Completed(Admit(vs[n], c).ctx);
  }

  /**
   * The chain completes exactly when every validator in it succeeds, each on
   * the context left by those before it.
   */
  lemma ChainCompletesIff(vs: seq<BodyValidator>, ctx: Context)
    ensures Pipeline(vs, ctx).Completed? <==>
              forall i :: 0 <= i < |vs| ==>
                Pipeline(vs[..i], ctx).Completed? && Admit(vs[i], Pipeline(vs[..i], ctx).ctx).Completed?
  {
    if vs != [] && forall i :: 0 <= i < |vs| ==>
                     Pipeline(vs[..i], ctx).Completed? && Admit(vs[i], Pipeline(vs[..i], ctx).ctx).Completed? {
      LastValidatorCompletes(vs, ctx);
    }
    if Pipeline(vs, ctx).Completed? {
      forall i | 0 <= i < |vs|
        ensures Pipeline(vs[..i], ctx).Completed? && Admit(vs[i], Pipeline(vs[..i], ctx).ctx).Completed?
      {
        ParsedKeysKept(vs, ctx, i);
      }
    }
  }

  /**
   * Once validator i raises, nothing after it runs: the outcome is its failure,
   * whatever validators follow.
   */
  lemma FailureSkipsLaterValidators(vs: seq<BodyValidator>, i: nat, rest: seq<BodyValidator>, ctx: Context)
    requires i < |vs| && Pipeline(vs[..i], ctx).Completed?
    requires Admit(vs[i], Pipeline(vs[..i], ctx).ctx).Raised?
    ensures Pipeline(vs[..i + 1] + rest, ctx) == Admit(vs[i], Pipeline(vs[..i], ctx).ctx)
  {
    assert vs[..i + 1] == vs[..i] + [vs[i]];
    PipelineAppend(vs[..i] + [vs[i]], rest, ctx);
    PipelineAppend(vs[..i], [vs[i]], ctx);
  }

  /** A successful pipeline only adds keys to `state.body`. */
  lemma {:induction false} PipelineGrowsBody(vs: seq<BodyValidator>, ctx: Context)
    requires Pipeline(vs, ctx).Completed?
    ensures ctx.state.body.Keys <= Pipeline(vs, ctx).ctx.state.body.Keys
    decreases |vs|
  {
    if vs != [] {
      PipelineGrowsBody(vs[1..], Admit(vs[0], ctx).ctx);
    }
  }

  lemma ParsedKeysKept(vs: seq<BodyValidator>, ctx: Context, i: nat)
    requires i < |vs| && Pipeline(vs, ctx).Completed?
    ensures Pipeline(vs[..i], ctx).Completed?
    ensures Accepted(vs[i], Pipeline(vs[..i], ctx).ctx).Some?
    ensures Accepted(vs[i], Pipeline(vs[..i], ctx).ctx).value.Keys <= Pipeline(vs, ctx).ctx.state.body.Keys
  {
    assert vs == vs[..i] + vs[i..];
    PipelineAppend(vs[..i], vs[i..], ctx);
    var c := Pipeline(vs[..i], ctx).ctx;
    assert vs[i..][0] == vs[i] && vs[i..][1..] == vs[i + 1..];
    PipelineGrowsBody(vs[i + 1..], Admit(vs[i], c).ctx);
  }

  /**
   * After a successful chain, `state.body` holds every key the earlier state
   * held and every key parsed by any validator of the chain.
   */
  lemma ChainKeepsParsedKeys(vs: seq<BodyValidator>, ctx: Context)
    requires Pipeline(vs, ctx).Completed?
    ensures ctx.state.body.Keys <= Pipeline(vs, ctx).ctx.state.body.Keys
    ensures forall i :: 0 <= i < |vs| ==>
              Pipeline(vs[..i], ctx).Completed? &&
              Accepted(vs[i], Pipeline(vs[..i], ctx).ctx).Some? &&
              Accepted(vs[i], Pipeline(vs[..i], ctx).ctx).value.Keys <= Pipeline(vs, ctx).ctx.state.body.Keys
  {
    PipelineGrowsBody(vs, ctx);
    forall i | 0 <= i < |vs|
      ensures Pipeline(vs[..i], ctx).Completed? &&
              Accepted(vs[i], Pipeline(vs[..i], ctx).ctx).Some? &&
              Accepted(vs[i], Pipeline(vs[..i], ctx).ctx).value.Keys <= Pipeline(vs, ctx).ctx.state.body.Keys
    {
      ParsedKeysKept(vs, ctx, i);
    }
  }

  /** A middleware on a route: a builder's validator, or any other handler. */
  datatype Middleware = Validation(validator: Validator) | Handler(run: (Context, Next) -> Outcome)

  function Run(m: Middleware, ctx: Context, next: Next): Outcome {
    match m
    case Validation(v) => RunValidator(v, ctx, next)
    case Handler(f) => f(ctx, next)
  }

  /** How the wrapped oak router runs a matched route's middleware list: each one's `next` runs the rest. */
  function Compose(mws: seq<Middleware>, ctx: Context, next: Next): Outcome
    decreases |mws|
  {
    if mws == [] then next(ctx) else Run(mws[0], ctx, c => Compose(mws[1..], c, next))
  }

  /**
   * A route registered through a builder holding the chain `vs`: the handler
   * and the middlewares after it run if and only if every validator succeeds,
   * in order, and then on the validated context; otherwise the first failure
   * is the route's outcome.
   */
  lemma ValidatedRouteRuns(vs: seq<BodyValidator>, handler: Middleware, rest: seq<Middleware>, ctx: Context, next: Next)
    requires |vs| > 0
    ensures Compose([Validation(Chain(vs)), handler] + rest, ctx, next) ==
              if Pipeline(vs, ctx).Completed? then Compose([handler] + rest, Pipeline(vs, ctx).ctx, next)
              else Pipeline(vs, ctx)
  {
    var mws := [Validation(Chain(vs)), handler] + rest;
    assert mws[0] == Validation(Chain(vs)) && mws[1..] == [handler] + rest;
    RunIsBind(Chain(vs), ctx, c => Compose(mws[1..], c, next));
    ChainIsPipeline(vs, ctx);
  }

  /** The HTTP methods a route can be registered for. */
  datatype Verb = All | Get | Post | Put | Patch | Delete | Options | Head

  /** The first argument of `use`: a path, or already a middleware. */
  datatype PathOrMiddleware = Path(path: string) | Middle(middleware: Middleware)

  /** A registration made on the wrapped oak router. */
  datatype Registration =
    | Route(verb: Verb, path: string, middlewares: seq<Middleware>)
    | Mount(first: PathOrMiddleware, rest: seq<Middleware>)
    | RedirectRoute(source: string, destination: string, status: int)

  /** oak's router options (only the prefix is kept) with the `autoRegister` flag of app.ts. */
  datatype RouterOptions = RouterOptions(prefix: Option<string>, autoRegister: Option<bool>)

  /** The middlewares oak derives from a router. */
  datatype RouterMiddleware = RoutesOf(router: Router) | AllowedMethodsOf(router: Router)

  class Router {
    /** The options the wrapped oak router was made with. */
    const options: Option<RouterOptions>
    /** Everything registered on the wrapped oak router, in call order. */
    var registrations: seq<Registration>

    constructor (options: Option<RouterOptions>)
      ensures this.options == options && registrations == []
    {
      this.options := options;
      registrations := [];
    }

    /** input: a builder whose parent is this router and whose validator is validateBody(schema, options). */
    method Input(schema: Schema, options: Option<ValidationOptions>) returns (b: ValidatedRoute)
      ensures fresh(b) && b.parent == this
      ensures b.validator == Validate(BodyValidator(schema, options.GetOr(NoOptions)))
      ensures b.validator == Chain([BodyValidator(schema, options.GetOr(NoOptions))])
    {
      b := new ValidatedRoute(this, Validate(BodyValidator(schema, options.GetOr(NoOptions))));
    }

    method Use(first: PathOrMiddleware, rest: seq<Middleware>) returns (r: Router)
      modifies this
      ensures r == this && registrations == old(registrations) + [Mount(first, rest)]
    {
      registrations := registrations + [Mount(first, rest)];
      r := this;
    }

    method All(path: string, middleware: Middleware, middlewares: seq<Middleware>) returns (r: Router)
      modifies this
      ensures r == this && registrations == old(registrations) + [Route(Verb.All, path, [middleware] + middlewares)]
    {
      registrations := registrations + [Route(Verb.All, path, [middleware] + middlewares)];
      r := this;
    }

    method Get(path: string, middleware: Middleware, middlewares: seq<Middleware>) returns (r: Router)
      modifies this
      ensures r == this && registrations == old(registrations) + [Route(Verb.Get, path, [middleware] + middlewares)]
    {
      registrations := registrations + [Route(Verb.Get, path, [middleware] + middlewares)];
      r := this;
    }

    method Post(path: string, middleware: Middleware, middlewares: seq<Middleware>) returns (r: Router)
      modifies this
      ensures r == this && registrations == old(registrations) + [Route(Verb.Post, path, [middleware] + middlewares)]
    {
      registrations := registrations + [Route(Verb.Post, path, [middleware] + middlewares)];
      r := this;
    }

    method Put(path: string, middleware: Middleware, middlewares: seq<Middleware>) returns (r: Router)
      modifies this
      ensures r == this && registrations == old(registrations) + [Route(Verb.Put, path, [middleware] + middlewares)]
    {
      registrations := registrations + [Route(Verb.Put, path, [middleware] + middlewares)];
      r := this;
    }

    method Patch(path: string, middleware: Middleware, middlewares: seq<Middleware>) returns (r: Router)
      modifies this
      ensures r == this && registrations == old(registrations) + [Route(Verb.Patch, path, [middleware] + middlewares)]
    {
      registrations := registrations + [Route(Verb.Patch, path, [middleware] + middlewares)];
      r := this;
    }

    method Delete(path: string, middleware: Middleware, middlewares: seq<Middleware>) returns (r: Router)
      modifies this
      ensures r == this && registrations == old(registrations) + [Route(Verb.Delete, path, [middleware] + middlewares)]
    {
      registrations := registrations + [Route(Verb.Delete, path, [middleware] + middlewares)];
      r := this;
    }

    method Options(path: string, middleware: Middleware, middlewares: seq<Middleware>) returns (r: Router)
      modifies this
      ensures r == this && registrations == old(registrations) + [Route(Verb.Options, path, [middleware] + middlewares)]
    {
      registrations := registrations + [Route(Verb.Options, path, [middleware] + middlewares)];
      r := this;
    }

    method Head(path: string, middleware: Middleware, middlewares: seq<Middleware>) returns (r: Router)
      modifies this
      ensures r == this && registrations == old(registrations) + [Route(Verb.Head, path, [middleware] + middlewares)]
    {
      registrations := registrations + [Route(Verb.Head, path, [middleware] + middlewares)];
      r := this;
    }

    /** redirect: status 302 (Found) unless one is given. */
    method Redirect(source: string, destination: string, status: Option<int>) returns (r: Router)
      modifies this
      ensures r == this && registrations == old(registrations) + [RedirectRoute(source, destination, status.GetOr(Found))]
    {
      registrations := registrations + [RedirectRoute(source, destination, status.GetOr(Found))];
      r := this;
    }

    /** routes(): the wrapped router's dispatch middleware, for this router. */
    function Routes(): (m: RouterMiddleware)
      ensures m.RoutesOf? && m.router == this
    {
      RoutesOf(this)
    }

    /** allowedMethods(): the wrapped router's method-negotiation middleware, for this router. */
    function AllowedMethods(): (m: RouterMiddleware)
      ensures m.AllowedMethodsOf? && m.router == this
    {
      AllowedMethodsOf(this)
    }
  }

  class ValidatedRoute {
    const parent: Router
    const validator: Validator

    constructor (parent: Router, validator: Validator)
      ensures this.parent == parent && this.validator == validator
    {
      this.parent := parent;
      this.validator := validator;
    }

    /**
     * apply: registers `verb` on the parent with the accumulated validator
     * first, then the handler, then the other middlewares; returns the parent.
     */
    method Apply(verb: Verb, path: string, middleware: Middleware, middlewares: seq<Middleware>) returns (r: Router)
      modifies parent
      ensures r == parent
      ensures parent.registrations == old(parent.registrations) + [Route(verb, path, [Validation(validator), middleware] + middlewares)]
    {
      assert [Validation(validator)] + ([middleware] + middlewares) == [Validation(validator), middleware] + middlewares;
      match verb
      case All => r := parent.All(path, Validation(validator), [middleware] + middlewares);
      case Get => r := parent.Get(path, Validation(validator), [middleware] + middlewares);
      case Post => r := parent.Post(path, Validation(validator), [middleware] + middlewares);
      case Put => r := parent.Put(path, Validation(validator), [middleware] + middlewares);
      case Patch => r := parent.Patch(path, Validation(validator), [middleware] + middlewares);
      case Delete => r := parent.Delete(path, Validation(validator), [middleware] + middlewares);
      case Options => r := parent.Options(path, Validation(validator), [middleware] + middlewares);
      case Head => r := parent.Head(path, Validation(validator), [middleware] + middlewares);
    }

    /**
     * input: a new builder on the same parent whose validator runs this one's
     * first and then validateBody(schema, options). The receiver is unchanged.
     */
    method Input(schema: Schema, options: ValidationOptions) returns (b: ValidatedRoute)
      ensures fresh(b) && b.parent == parent
      ensures b.validator == Then(validator, Validate(BodyValidator(schema, options)))
      ensures forall vs :: |vs| > 0 && validator == Chain(vs) ==> b.validator == Chain(vs + [BodyValidator(schema, options)])
    {
      b := new ValidatedRoute(parent, Then(validator, Validate(BodyValidator(schema, options))));
      forall vs | |vs| > 0 && validator == Chain(vs)
        ensures b.validator == Chain(vs + [BodyValidator(schema, options)])
      {
        ChainSnoc(vs, BodyValidator(schema, options));
      }
    }

    method All(path: string, middleware: Middleware, middlewares: seq<Middleware>) returns (r: Router)
      modifies parent
      ensures r == parent
      ensures parent.registrations == old(parent.registrations) + [Route(Verb.All, path, [Validation(validator), middleware] + middlewares)]
    {
      r := Apply(Verb.All, path, middleware, middlewares);
    }

    method Get(path: string, middleware: Middleware, middlewares: seq<Middleware>) returns (r: Router)
      modifies parent
      ensures r == parent
      ensures parent.registrations == old(parent.registrations) + [Route(Verb.Get, path, [Validation(validator), middleware] + middlewares)]
    {
      r := Apply(Verb.Get, path, middleware, middlewares);
    }

    method Post(path: string, middleware: Middleware, middlewares: seq<Middleware>) returns (r: Router)
      modifies parent
      ensures r == parent
      ensures parent.registrations == old(parent.registrations) + [Route(Verb.Post, path, [Validation(validator), middleware] + middlewares)]
    {
      r := Apply(Verb.Post, path, middleware, middlewares);
    }

    method Put(path: string, middleware: Middleware, middlewares: seq<Middleware>) returns (r: Router)
      modifies parent
      ensures r == parent
      ensures parent.registrations == old(parent.registrations) + [Route(Verb.Put, path, [Validation(validator), middleware] + middlewares)]
    {
      r := Apply(Verb.Put, path, middleware, middlewares);
    }

    method Patch(path: string, middleware: Middleware, middlewares: seq<Middleware>) returns (r: Router)
      modifies parent
      ensures r == parent
      ensures parent.registrations == old(parent.registrations) + [Route(Verb.Patch, path, [Validation(validator), middleware] + middlewares)]
    {
      r := Apply(Verb.Patch, path, middleware, middlewares);
    }

    method Delete(path: string, middleware: Middleware, middlewares: seq<Middleware>) returns (r: Router)
      modifies parent
      ensures r == parent
      ensures parent.registrations == old(parent.registrations) + [Route(Verb.Delete, path, [Validation(validator), middleware] + middlewares)]
    {
      r := Apply(Verb.Delete, path, middleware, middlewares);
    }

    method Options(path: string, middleware: Middleware, middlewares: seq<Middleware>) returns (r: Router)
      modifies parent
      ensures r == parent
      ensures parent.registrations == old(parent.registrations) + [Route(Verb.Options, path, [Validation(validator), middleware] + middlewares)]
    {
      r := Apply(Verb.Options, path, middleware, middlewares);
    }

    method Head(path: string, middleware: Middleware, middlewares: seq<Middleware>) returns (r: Router)
      modifies parent
      ensures r == parent
      ensures parent.registrations == old(parent.registrations) + [Route(Verb.Head, path, [Validation(validator), middleware] + middlewares)]
    {
      r := Apply(Verb.Head, path, middleware, middlewares);
    }
  }
}
