/**
 * The response-throw helpers and the body validator of utils.ts. A function
 * that "throws" a response here returns the `Signal` it raises.
 */
module Utils {
  import opened Wrappers
  import opened Values
  import opened Platform

  /** resToCtx: copies a thrown response onto `ctx.response`; nothing else in the context changes. */
  function ResToCtx(response: Response, ctx: Context): (c: Context)
    ensures c.response.kind == response.kind && c.response.body == response.body
    ensures c.response.status == response.status && c.response.headers == response.headers
    ensures c.request == ctx.request && c.state == ctx.state
  {
    ctx.(response := ContextResponse(response.kind, response.body, response.status, response.headers))
  }

  /** The `{hasError, error, data}` JSON envelope of every success and failure body. */
  datatype Envelope = Envelope(hasError: bool, error: Value, data: Value) {
    function ToValue(): (v: Value)
      ensures v.Obj? && v.fields.Keys == {"hasError", "error", "data"}
    {
      Obj(map["hasError" := Bool(hasError), "error" := error, "data" := data])
    }
  }

  /** How a client reads an envelope back. */
  function ReadEnvelope(v: Value): Option<Envelope> {
    if v.Obj? && "hasError" in v.fields && v.fields["hasError"].Bool? && "error" in v.fields && "data" in v.fields
    then Some(Envelope(v.fields["hasError"].b, v.fields["error"], v.fields["data"]))
    else None
  }

  lemma EnvelopeRoundTrip(e: Envelope)
    ensures ReadEnvelope(e.ToValue()) == Some(e)
  {
  }

  /** json: never returns; it always raises the JSON response of `data` with `init`. */
  function Json(data: Value, init: ResponseInit): (s: Signal)
    ensures s.Respond? && s.response.body == data
    ensures s.response.status == init.status.GetOr(200)
    ensures s.response.headers == init.headers.GetOr(map[]) && s.response.statusText == init.statusText.GetOr("")
  {
    Respond(ResponseJson(data, init))
  }

  /** success: raises the success envelope of `data`; `init` is passed through unchanged. */
  function Success(data: Value, init: ResponseInit): (s: Signal)
    ensures s.Respond? && s.response.body == Envelope(false, Null, data).ToValue()
    ensures ReadEnvelope(s.response.body) == Some(Envelope(false, Null, data))
    ensures s.response.status == init.status.GetOr(200)
    ensures s.response.headers == init.headers.GetOr(map[]) && s.response.statusText == init.statusText.GetOr("")
  {
    Json(Envelope(false, Null, data).ToValue(), init)
  }

  /** fail: raises the failure envelope of `error`, with status 400 unless `init` names one. */
  function Fail(error: Value, init: ResponseInit): (s: Signal)
    ensures s.Respond? && s.response.body == Envelope(true, error, Null).ToValue()
    ensures ReadEnvelope(s.response.body) == Some(Envelope(true, error, Null))
    ensures s.response.status == init.status.GetOr(400)
    ensures s.response.headers == init.headers.GetOr(map[]) && s.response.statusText == init.statusText.GetOr("")
  {
    Json(Envelope(true, error, Null).ToValue(), ResponseInit(Some(init.status.GetOr(400)), init.headers, init.statusText))
  }

  /** redirect: raises a redirect to `url`, with the platform's default status 302. */
  function Redirect(url: string, status: Option<int>): (s: Signal)
    ensures s.Respond? && s.response.status == status.GetOr(Found)
    ensures "location" in s.response.headers && s.response.headers["location"] == url
  {
    Respond(ResponseRedirect(url, status))
  }

  /** The failure raised when a body cannot be read: status 500. */
  const InternalError: Signal := Fail(Str("Internal Server Error"), ResponseInit(Some(500), None, None))

  /**
   * What an error handler gives back: `Now(r)` from a plain function, `Later(r)`
   * from an async one (a promise that settles to `r`). `None` is a falsy
   * result (`null`, `undefined`, nothing).
   */
  datatype HandlerResult = Now(response: Option<Response>) | Later(settlesTo: Option<Response>) {
    /** The result once awaited. */
    function Settled(): Option<Response> {
      match this
      case Now(r) => r
      case Later(r) => r
    }
  }

  /** The `onErr` of getJSONBody: receives whatever reading the body raised. */
  type ReadErrorHandler = Signal -> HandlerResult

  /**
   * getJSONBody: the parsed body when it is declared "json"; `undefined` for any
   * other declared type. A failed read raises what `onErr` settles to, or a 500 failure.
   */
  function GetJsonBody(body: RequestBody, onErr: Option<ReadErrorHandler>): (r: Attempt<Value>)
    ensures body.kind == "json" && body.value.Returned? ==> r == body.value
    ensures body.kind != "json" ==> r == Returned(Undefined)
    ensures r.Threw? <==> body.kind == "json" && body.value.Threw?
    ensures r.Threw? && onErr.Some? && onErr.value(body.value.signal).Settled().Some? ==>
              r.signal == Respond(onErr.value(body.value.signal).Settled().value)
    ensures r.Threw? && (onErr.None? || onErr.value(body.value.signal).Settled().None?) ==>
              r.signal == InternalError && r.signal.response.status == 500
  {
    if body.kind != "json" then Returned(Undefined)
    else
      match body.value
      case Returned(v) => Returned(v)
      case Threw(e) =>
        if onErr.None? then Threw(InternalError)
        else
          match onErr.value(e).Settled()
          case Some(res) => Threw(Respond(res))
          case None => Threw(InternalError)
  }

  /** What the schema library reports on a rejected value, already flattened. */
  datatype ZodError = ZodError(formErrors: seq<string>, fieldErrors: FieldErrors)

  /** The result of the schema's `safeParse`: the parsed fields, or the error. */
  datatype ParseResult = Parsed(data: map<string, Value>) | Rejected(error: ZodError)

  /** A schema, seen only through its `safeParse`. */
  type Schema = Value -> ParseResult

  /** A `readerFn`: produces the value to validate from the context. */
  type Reader = Context -> Attempt<Value>

  /** The `onErr` of validateBody: receives the schema error. */
  type ValidationErrorHandler = ZodError -> HandlerResult

  datatype ValidationOptions = ValidationOptions(readerFn: Option<Reader>, onErr: Option<ValidationErrorHandler>)

  const NoOptions: ValidationOptions := ValidationOptions(None, None)

  /** The middleware `validateBody(schema, options)`. */
  datatype BodyValidator = BodyValidator(schema: Schema, options: ValidationOptions)

  /** The reader of `fromQueryOrFail`: the query parameters as an object of strings. */
  function QueryReader(ctx: Context): (r: Attempt<Value>)
    ensures r.Returned? && r.value.Obj? && r.value.fields.Keys == ctx.request.query.Keys
    ensures forall k :: k in ctx.request.query ==> r.value.fields[k] == Str(ctx.request.query[k])
  {
    Returned(Obj(map k | k in ctx.request.query :: Str(ctx.request.query[k])))
  }

  const FromQueryOrFail: ValidationOptions := ValidationOptions(Some(QueryReader), None)

  /**
   * The value validateBody validates: `readerFn(ctx)` when given, otherwise
   * getJSONBody without `onErr`, so that a failed read always raises the 500 failure.
   */
  function ReadBody(options: ValidationOptions, ctx: Context): (r: Attempt<Value>)
    ensures options.readerFn.Some? ==> r == options.readerFn.value(ctx)
    ensures options.readerFn.None? ==> r == GetJsonBody(ctx.request.body, None)
    ensures options.readerFn.None? && r.Threw? ==> r.signal == InternalError
    ensures options.readerFn.None? && ctx.request.body.kind != "json" ==> r == Returned(Undefined)
  {
    if options.readerFn.Some? then options.readerFn.value(ctx) else GetJsonBody(ctx.request.body, None)
  }

  /**
   * `{ ...base, ...parsed }`: every key of either; a parsed key overwrites the
   * old value, an unrelated old key keeps its value.
   */
  function Merge(base: map<string, Value>, parsed: map<string, Value>): (m: map<string, Value>)
    ensures m.Keys == base.Keys + parsed.Keys
    ensures forall k :: k in parsed ==> m[k] == parsed[k]
    ensures forall k :: k in base && k !in parsed ==> m[k] == base[k]
  {
    base + parsed
  }

  /**
   * What validateBody raises when the schema rejects: the response `onErr`
   * settles to, otherwise a 400 failure whose error is the field-error mapping.
   */
  function Reject(onErr: Option<ValidationErrorHandler>, err: ZodError): (s: Signal)
    ensures s.Respond?
    ensures onErr.Some? && onErr.value(err).Settled().Some? ==> s == Respond(onErr.value(err).Settled().value)
    ensures onErr.None? || onErr.value(err).Settled().None? ==>
              s.response.status == 400 &&
              ReadEnvelope(s.response.body) == Some(Envelope(true, FieldErrorsValue(err.fieldErrors), Null))
    ensures onErr.None? || onErr.value(err).Settled().None? ==> s == Fail(FieldErrorsValue(err.fieldErrors), NoInit)
  {
    var maybeRes := if onErr.Some? then onErr.value(err).Settled() else None;
    if maybeRes.Some? then Respond(maybeRes.value) else Fail(FieldErrorsValue(err.fieldErrors), NoInit)
  }

  /**
   * Reject as utils.ts:97-99 writes it: the result of `onErr` is not awaited,
   * so an async handler's promise, always truthy, is itself what is thrown.
   */
  function RejectAsWritten(onErr: Option<ValidationErrorHandler>, err: ZodError): (s: Signal)
    ensures onErr.Some? && onErr.value(err).Later? ==> s == ThrownPromise(onErr.value(err).settlesTo)
    ensures onErr.Some? && onErr.value(err).Now? ==> s == Reject(onErr, err)
    ensures onErr.None? ==> s == Reject(onErr, err)
  {
    if onErr.None? then Fail(FieldErrorsValue(err.fieldErrors), NoInit)
    else
      match onErr.value(err)
      case Later(p) => ThrownPromise(p)
      case Now(Some(res)) => Respond(res)
      case Now(None) => Fail(FieldErrorsValue(err.fieldErrors), NoInit)
  }

  /** The fields the schema accepts, when reading and parsing both succeed. */
  function Accepted(v: BodyValidator, ctx: Context): Option<map<string, Value>> {
    match ReadBody(v.options, ctx)
    case Threw(_) => None
    case Returned(body) =>
      match v.schema(body)
      case Rejected(_) => None
      case Parsed(data) => Some(data)
  }

  /**
   * The part of validateBody before `next`: read, parse, then raise, or merge
   * the parsed fields into `ctx.state.body`.
   */
  function Admit(v: BodyValidator, ctx: Context): (r: Outcome)
    ensures r.Completed? <==> Accepted(v, ctx).Some?
    ensures r.Completed? ==> r.ctx == ctx.(state := ctx.state.(body := Merge(ctx.state.body, Accepted(v, ctx).value)))
    ensures r.Raised? ==> r.ctx == ctx
    ensures r.Raised? && ReadBody(v.options, ctx).Returned? ==>
              r.signal == Reject(v.options.onErr, v.schema(ReadBody(v.options, ctx).value).error)
    ensures r.Raised? && ReadBody(v.options, ctx).Threw? ==> r.signal == ReadBody(v.options, ctx).signal
  {
    match ReadBody(v.options, ctx)
    case Threw(s) => Raised(ctx, s)
    case Returned(body) =>
      match v.schema(body)
      case Rejected(err) => Raised(ctx, Reject(v.options.onErr, err))
      case Parsed(data) => Completed(ctx.(state := ctx.state.(body := Merge(ctx.state.body, data))))
  }

  /**
   * The middleware returned by validateBody(schema, options), run on `ctx` with
   * continuation `next`: a failed read or parse raises without touching the
   * context; otherwise the outcome is that of `next` on the merged context.
   */
  function ValidateBody(v: BodyValidator, ctx: Context, next: Next): (r: Outcome)
    ensures Accepted(v, ctx).None? ==> r.Raised? && r.ctx == ctx
    ensures Accepted(v, ctx).Some? ==>
              r == next(ctx.(state := ctx.state.(body := Merge(ctx.state.body, Accepted(v, ctx).value))))
  {
    Continue(Admit(v, ctx), next)
  }

  /**
   * On a schema failure validateBody never calls `next` (its outcome is the
   * same whatever `next` is) and raises `onErr`'s response or the 400 failure.
   */
  lemma ValidateBodyRejects(v: BodyValidator, ctx: Context, next: Next, other: Next)
    requires ReadBody(v.options, ctx).Returned? && v.schema(ReadBody(v.options, ctx).value).Rejected?
    ensures ValidateBody(v, ctx, next) == ValidateBody(v, ctx, other)
    ensures ValidateBody(v, ctx, next) == Raised(ctx, Reject(v.options.onErr, v.schema(ReadBody(v.options, ctx).value).error))
  {
  }

  /**
   * On a schema success validateBody calls `next` exactly once, as its last
   * step, with the parsed fields merged over `ctx.state.body`.
   */
  lemma ValidateBodyAccepts(v: BodyValidator, ctx: Context, next: Next)
    requires ReadBody(v.options, ctx).Returned? && v.schema(ReadBody(v.options, ctx).value).Parsed?
    ensures ValidateBody(v, ctx, next) ==
              next(ctx.(state := ctx.state.(body := Merge(ctx.state.body, v.schema(ReadBody(v.options, ctx).value).data))))
  {
  }
}
