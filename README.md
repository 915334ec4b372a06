# cloak: validated routes and the response-throw protocol, in Dafny

cloak is a thin layer over the oak HTTP framework and the zod schema library.
This project models the layer's own control logic and proves what it promises:

- **Response-throw protocol** (`utils.ts`). `json`, `success`, `fail` and
  `redirect` never return; they raise a platform `Response`. `success` and
  `fail` wrap their payload in the `{hasError, error, data}` envelope. A raised
  value is a `Signal`. A middleware ends in an `Outcome`: `Completed(ctx)` or
  `Raised(ctx, signal)`, where `ctx` is the context as left at the throw.
- **Body validator** (`utils.ts`). `getJSONBody` decides between the parsed
  body, `undefined`, and a raised failure. `validateBody` reads a value, runs the
  schema's `safeParse` (an abstract function from values to parsed fields or a
  flattened error), and then either raises or shallow-merges the parsed fields
  into `state.body` and calls `next`.
- **Router and ValidatedRoute builder** (`router.ts`). `Router` forwards every
  registration to the wrapped oak router and returns itself. `input` starts a
  builder. Each further `input` wraps the accumulated validator so that
  validators run in call order. Registering a route puts the validator in front
  of the handler. The proofs show that a chain of k validators behaves as a
  left-to-right bind: the handler runs exactly when every validator succeeds.
- **Server** (`app.ts`). `createServer` installs the interceptor first. It
  keeps an ordered registry of auto-registered routers. `listen` mounts each
  registered router's `routes()` and then its `allowedMethods()`.

Files: `wrappers.dfy` (Option), `values.dfy` (JavaScript values and the
field-error encoding), `platform.dfy` (the platform `Response`, oak's context,
signals and outcomes), `utils.dfy`, `router.dfy`, `app.dfy`.

On the read-error path of `getJSONBody` (utils.ts:66-74), `fail` always
throws. Without `onErr`, line 68 therefore exits at once with the 500 failure.
With `onErr`, its awaited result is raised when it is truthy, and the 500
failure otherwise.

## Model

| member | source | states |
|---|---|---|
| `Utils.ResToCtx` | utils.ts:12-17 | the context's response gets the type, body, status and headers of the thrown response; the request and the state are unchanged |
| `Utils.Json` | utils.ts:19-21 | never returns normally: always raises a `Response` whose body is `data` and whose status, headers and statusText come from `init` (status 200 when absent) |
| `Utils.Success` | utils.ts:23-32 | raises a response whose body is exactly the envelope `{hasError:false, error:null, data}` and reads back as it; `init` passes through unchanged (status 200 when absent) |
| `Utils.Fail` | utils.ts:34-47 | raises a response whose body is exactly the envelope `{hasError:true, error, data:null}` and reads back as it; status is `init.status`, else 400; headers and statusText are copied from `init` |
| `Utils.EnvelopeRoundTrip` | utils.ts:25-29 | the envelope a client receives reads back to exactly the hasError, error and data that were sent |
| `Utils.Redirect` | utils.ts:49-51 | raises a redirect response to `url`, with status 302 unless one is given |
| `Utils.GetJsonBody` | utils.ts:53-75 | a "json" body that reads gives its value; any other declared type gives `undefined`; it raises exactly when a json read fails, and then raises the response `onErr` settles to, else the 500 failure |
| `Utils.QueryReader` | utils.ts:107-109 | `fromQueryOrFail` reads never fail and give an object with exactly the query's keys, each mapped to its string |
| `Utils.ReadBody` | utils.ts:91 | uses `readerFn(ctx)` when supplied; otherwise exactly `getJSONBody` without `onErr`, so a failed read always raises the 500 failure and a non-json body reads as `undefined` |
| `Utils.Merge` | utils.ts:101 | the shallow merge keeps every key of both; parsed keys overwrite old values; unrelated old keys keep their values |
| `Utils.Reject` | utils.ts:95-99 | on a schema failure: the response `onErr` yields, when it yields one; otherwise exactly the response `fail(fieldErrors)` builds: a 400 failure whose error is the flattened field-error map, with no other headers or statusText; always a response |
| `Utils.RejectAsWritten` | utils.ts:97-98 | the code as written: an async `onErr` makes its (unawaited) promise the thrown value; a synchronous one behaves as `Reject` |
| `Utils.Admit` | utils.ts:90-103 | the validator succeeds exactly when the read returns and the schema accepts; on success only `state.body` changes, to the merge of the old body and the parsed fields; on failure nothing changes and the raised value is the read error or the rejection |
| `Utils.ValidateBody` | utils.ts:90-104 | the middleware raises, leaving the context unchanged, exactly when the read fails or the schema rejects; otherwise its outcome is one call of `next` on the context whose `state.body` is the merge of the old body and the parsed fields |
| `Utils.ValidateBodyRejects` | utils.ts:95-99 | on a schema failure `next` is never called (the outcome is the same for any `next`) and the rejection is raised |
| `Utils.ValidateBodyAccepts` | utils.ts:100-103 | on a schema success the outcome is exactly that of one call of `next` on the merged context |
| `Values.FieldErrorsValue` | utils.ts:99 | the error object sent has exactly the fields of the flattened error map |
| `Values.FieldErrorsRoundTrip` | utils.ts:99 | the JSON form of the field errors reads back to the same fields with the same messages in the same order |
| `Routing.Router.constructor` | router.ts:19-21 | a router starts with an empty wrapped oak router built from its options |
| `Routing.Router.Input` | router.ts:23-28 | a fresh builder whose parent is this router and whose validator is `validateBody(schema, options)`, the chain of that one validator |
| `Routing.Router.Use` | router.ts:46-52 | forwards its arguments unchanged to the wrapped router and returns the same router |
| `Routing.Router.All` | router.ts:54-65 | registers `all` with the path and middlewares unchanged and returns the same router |
| `Routing.Router.Get` | router.ts:67-78 | registers `get` with the path and middlewares unchanged and returns the same router |
| `Routing.Router.Post` | router.ts:80-91 | registers `post` with the path and middlewares unchanged and returns the same router |
| `Routing.Router.Put` | router.ts:93-104 | registers `put` with the path and middlewares unchanged and returns the same router |
| `Routing.Router.Patch` | router.ts:106-117 | registers `patch` with the path and middlewares unchanged and returns the same router |
| `Routing.Router.Delete` | router.ts:119-130 | registers `delete` with the path and middlewares unchanged and returns the same router |
| `Routing.Router.Options` | router.ts:132-143 | registers `options` with the path and middlewares unchanged and returns the same router |
| `Routing.Router.Head` | router.ts:145-156 | registers `head` with the path and middlewares unchanged and returns the same router |
| `Routing.Router.Redirect` | router.ts:158-166 | registers the redirect with status 302 (Found) unless one is given and returns the same router |
| `Routing.Router.Routes` | router.ts:168-170 | the routes middleware of the wrapped router of this router |
| `Routing.Router.AllowedMethods` | router.ts:171-173 | the allowed-methods middleware of the wrapped router of this router |
| `Routing.ValidatedRoute.constructor` | router.ts:177-180 | a builder holds its parent router and its validator |
| `Routing.ValidatedRoute.Apply` | router.ts:182-202 | registers on the parent: the accumulated validator first, then the handler, then the other middlewares in order; returns the parent, not the builder |
| `Routing.ValidatedRoute.Input` | router.ts:204-211 | a fresh builder on the same parent whose validator runs the old one and then `validateBody(schema, options)`: a builder holding the chain of k validators yields the chain of those k and the new one; the receiver's parent and validator are constants, so it is unchanged |
| `Routing.ValidatedRoute.All` | router.ts:213-229 | delegates to `apply` with `all` |
| `Routing.ValidatedRoute.Get` | router.ts:230-246 | delegates to `apply` with `get` |
| `Routing.ValidatedRoute.Post` | router.ts:247-263 | delegates to `apply` with `post` |
| `Routing.ValidatedRoute.Put` | router.ts:264-280 | delegates to `apply` with `put` |
| `Routing.ValidatedRoute.Patch` | router.ts:281-297 | delegates to `apply` with `patch` |
| `Routing.ValidatedRoute.Delete` | router.ts:298-314 | delegates to `apply` with `delete` |
| `Routing.ValidatedRoute.Options` | router.ts:315-331 | delegates to `apply` with `options` |
| `Routing.ValidatedRoute.Head` | router.ts:332-348 | delegates to `apply` with `head` |
| `Routing.RunValidator` | router.ts:206-210 | a builder validator that completes does so by calling its continuation: the outcome is `next` applied to some context |
| `Routing.ChainSnoc` | router.ts:204-211 | one more `input` call on a chain of k validators gives the chain of k + 1, with the new validator last |
| `Routing.RunIsBind` | router.ts:206-210 | every builder validator calls its continuation at most once, as its last step, with the context it validated |
| `Routing.InputRunsInOrder` | router.ts:206-210 | the composed validator runs the old one first; the new one runs only if the old one continues, and it receives the original `next`; a failure of the old one is the outcome |
| `Routing.ChainIsPipeline` | router.ts:204-211 | a builder made by k `input` calls validates exactly as the k validators run left to right, stopping at the first failure |
| `Routing.ChainCompletesIff` | router.ts:204-211 | the chain succeeds if and only if, for every i, the first i validators succeed and validator i then succeeds on the context they leave |
| `Routing.LastValidatorCompletes` | router.ts:206-210 | when the first k validators succeed and the next one succeeds on the context they leave, the chain of k + 1 succeeds |
| `Routing.FailureSkipsLaterValidators` | router.ts:206-210 | once validator i fails, no later validator runs: the outcome is validator i's failure whatever follows |
| `Routing.ChainKeepsParsedKeys` | router.ts:219-225 | after a successful chain, `state.body` holds every earlier key and every key parsed by every validator of the chain |
| `Routing.ValidatedRouteRuns` | router.ts:182-202 | a route registered through a builder runs its handler and later middlewares exactly when the chain succeeds, on the validated context; otherwise the chain's failure is the outcome |
| `App.Intercept` | app.ts:47-57 | a raised response is copied onto the context via `resToCtx` and the request completes; any other raised value is raised again unchanged; a response never passes through |
| `App.NoResponseEscapes` | app.ts:47-57 | with the interceptor first in the application, no raised response leaves the application |
| `App.ServerNoResponseEscapes` | app.ts:47-57 | for any server whose interceptor is installed first, as `createServer` and every server method keep it, no raised response leaves its application |
| `App.RejectedRouteResponds` | app.ts:47-57 | a route whose validator chain raises a response completes behind the interceptor with that response on the context |
| `App.SchemaFailureGives400` | utils.ts:95-99 | end to end: a body the schema rejects, without `onErr`, ends with status 400 and the failure envelope of the field errors; the outcome is the 400 rejection copied onto the unchanged context, the same for any handler, later middlewares and `next` |
| `App.AsyncOnErrEscapesInterceptor` | utils.ts:97-98 | with an async `onErr` the code as written re-raises past the interceptor; awaiting delivers the handler's response |
| `App.ServeStatic` | app.ts:77-85 | when `send` serves the file, that is the outcome; when `send` raises anything, the outcome is one call of `next` |
| `App.ServeStaticSkipsNextOnSuccess` | app.ts:79-83 | when `send` succeeds, `next` is not called: the outcome is the same for any `next`, and it completes |
| `App.MountAll` | app.ts:92-95 | `listen` mounts two middlewares per registered router, and every one of them is a router middleware |
| `App.AutoRegisters` | app.ts:72 | a created router is kept for mounting unless its options set `autoRegister` to exactly false; an absent flag keeps it |
| `App.MountAllLayout` | app.ts:92-95 | `listen` mounts 2 middlewares per router: router i's `routes()` at 2i and its `allowedMethods()` right after, and nothing else |
| `App.MountedIff` | app.ts:70-76 | a router's routes and allowed methods are mounted if and only if it is in the registry |
| `App.DisplayHost` | app.ts:17-20 | the displayed host is never the wildcard: only "0.0.0.0" is rewritten, to "localhost"; every other host shows unchanged |
| `App.Server.constructor` | app.ts:41-57 | a new server's application holds the interceptor alone, and its router registry is empty |
| `App.Server.Use` | app.ts:63-69 | appends the middlewares in order after everything installed so far and returns the same server; the interceptor stays first |
| `App.Server.CreateRouter` | app.ts:70-76 | a fresh router, appended to the registry when options are absent or `autoRegister` is not false, and not appended when it is false |
| `App.Server.ServeStatic` | app.ts:77-85 | appends the static-file middleware; nothing else changes |
| `App.Server.Listen` | app.ts:86-99 | appends, for each registered router in creation order, its `routes()` then its `allowedMethods()`; registers the listen handler (default `defaultOnListenHandler`) and starts listening |
| `App.OptOutRouterIsNotMounted` | app.ts:70-76 | a router created with `autoRegister: false` and followed by `listen` is never mounted |

## Left out

- oak internals are parameters, not models. This covers path matching, `allowedMethods` negotiation, `ctx.request.body()` parsing and `ctx.send`. The `Framework` datatype holds `send` and route dispatch. The request body is given as a declared type with a read result.
- `Routing.Compose` and `App.RunApp` model how oak runs a middleware list: each middleware's `next` runs the rest. This is oak's behaviour, taken as given.
- zod is a function from a value to parsed fields or an error that is already flattened. What `safeParse` checks, and the form errors, are not modelled.
- Only the fields this layer reads are kept from the platform `Response`. Not modelled: the JSON serialisation of `Response.json`, the content-type header it adds, and the URL and status checks of `Response.redirect`.
- `Utils.Json`, `Utils.Success`, `Utils.Fail`: the checks `Response.json` makes on `init` are not modelled, so every call is taken to raise a `Response`. In the source a status outside 200-599 throws a RangeError, and a null-body status such as 204 or 304, or a malformed statusText, throws a TypeError. Such a value is not a `Response`, so the interceptor raises it again.
- `Utils.GetJsonBody`: the call `ctx.request.body()` at utils.ts:60, before the `try`, is taken not to raise. In the source anything it raises leaves `getJSONBody` unchanged, without `onErr` and without the 500 failure. In the model a failure can only be a failed json read.
- `Routing.Router.Redirect`: the TypeScript `RedirectStatus` type limits the status; the model accepts any integer.
- Promises and `async`/`await` are sequential. A read that may fail is an `Attempt`. An `onErr` result says whether it came from an async handler. The promise returned by `listen`, and the serving lifetime, are not modelled.
- `onErr` handlers that themselves throw are not modelled. A reader that throws is modelled: its read result is a raised `Attempt`.
- The `ApplicationOptions` argument of `createServer` (app.ts:41-44) only configures the oak application; it is not modelled.
- Of oak's router options only `prefix` is kept, and it is only stored. The other options (methods, routerPath, sensitive, strict) configure oak's path matching, which is not modelled.
- Logging is not modelled: the `console.error` in `getJSONBody`, and the log line of `defaultOnListenHandler` apart from its host mapping.
- The `oakApp` getter of the server is not modelled.
- `StaticOptions` keeps only `root` and `path`. The other fields configure oak's `send`.
- The query string is already a map from name to value. `Object.fromEntries` and its handling of duplicate keys are not modelled.
- `state.body` is a map. The initial `undefined` behaves as the empty map under the spread. Parsed data that is not an object, such as a string spreading its characters, is not modelled.
- The TypeScript type of a handler's `state.body` is not modelled. `Routing.ChainKeepsParsedKeys` states the same guarantee about runtime values.
- `Utils.ResToCtx`, `Utils.ValidateBody`, `App.Intercept` and `App.ServeStatic`: in the source they update the shared request context in place. The model returns the updated context instead, because a continuation cannot be a method. Aliasing of the context object is therefore not captured. A raised outcome carries the context as it was when the value was thrown.
- Numbers are integers.
- `Router.routes()` and `Router.allowedMethods()` are the values `RoutesOf(router)` and `AllowedMethodsOf(router)`; what oak builds for them is not modelled.

## Findings

| source | as written | input that shows it | evidently intended | confidence | as-written member | corrected member |
|---|---|---|---|---|---|---|
| utils.ts:97-98 | `onErr?.(zodError)` is not awaited, although `ValidationOptions.onErr` may return a promise (utils.ts:79). A promise is always truthy, so it is the promise that is thrown. The interceptor does not see a `Response` and raises it again, and the client gets the framework's error instead of the handler's response. | an async `onErr`, e.g. `async (e) => Response.json(...)`, together with a body the schema rejects | await the handler, as `getJSONBody` does at utils.ts:69: raise its response when it settles to one, and the 400 failure otherwise | high; not executed | `Utils.RejectAsWritten`, `App.AsyncOnErrEscapesInterceptor` | `Utils.Reject` (used by `Utils.Admit`) |
