/**
 * What this layer sees of the web platform and of the oak framework: the
 * platform `Response` it throws, the oak request context it reads and writes,
 * and the way a middleware ends (normally, or by raising a value).
 */
module Platform {
  import opened Wrappers
  import opened Values

  type Headers = map<string, string>

  /** The platform's `ResponseInit`; every member may be left out. */
  datatype ResponseInit = ResponseInit(status: Option<int>, headers: Option<Headers>, statusText: Option<string>)

  const NoInit: ResponseInit := ResponseInit(None, None, None)

  /** Status 302, oak's `Status.Found`. */
  const Found: int := 302

  /** The fields of a platform `Response` this layer reads (its body kept as the value it encodes). */
  datatype Response = Response(kind: string, body: Value, status: int, statusText: string, headers: Headers)

  /** The platform's `Response.json(data, init)`: status 200 unless `init` names one. */
  function ResponseJson(data: Value, init: ResponseInit): Response {
    Response("default", data, init.status.GetOr(200), init.statusText.GetOr(""), init.headers.GetOr(map[]))
  }

  /** The platform's `Response.redirect(url, status)`: status 302 unless one is given. */
  function ResponseRedirect(url: string, status: Option<int>): Response {
    Response("default", Null, status.GetOr(Found), "", map["location" := url])
  }

  /** A value raised to end a middleware chain early. */
  datatype Signal =
    | Respond(response: Response)                   // a thrown platform `Response`
    | Fault(error: Value)                           // any other thrown value
    | ThrownPromise(settlesTo: Option<Response>)    // a thrown, unawaited promise

  /** A computation that returns a value or raises. */
  datatype Attempt<T> = Returned(value: T) | Threw(signal: Signal)

  /** The request body as oak reports it: its declared type and the promise of its parsed value. */
  datatype RequestBody = RequestBody(kind: string, value: Attempt<Value>)

  datatype Request = Request(body: RequestBody, query: map<string, string>)

  /** The fields of oak's `ctx.response` that this layer assigns. */
  datatype ContextResponse = ContextResponse(kind: string, body: Value, status: int, headers: Headers)

  /** `ctx.state`: the merged validated `body`, and every other key. */
  datatype RequestState = RequestState(body: map<string, Value>, others: map<string, Value>)

  datatype Context = Context(request: Request, response: ContextResponse, state: RequestState)

  /**
   * How a middleware ends: normally, or by raising `signal`. Either way `ctx`
   * is the request context as the middleware left it.
   */
  datatype Outcome = Completed(ctx: Context) | Raised(ctx: Context, signal: Signal)

  /** The continuation oak passes a middleware as `next`. */
  type Next = Context -> Outcome

  /** The continuation that ends the chain. */
  function Finish(ctx: Context): Outcome {
    Completed(ctx)
  }

  /** Runs `next` after `o` when `o` completed normally; a raised `o` skips it. */
  function Continue(o: Outcome, next: Next): Outcome {
    match o
    case Completed(c) => next(c)
    case Raised(_, _) => o
  }
}
