# Network and worker proxies of the Playwright RPC client

This project models, in Dafny, the local proxy objects through which a Playwright client sees
network activity and workers owned by the remote browser driver:

- `Request`: the header object decoded once at construction, the post data as text, as raw bytes
  and as a decoded object (`postDataJSON`), the failure report, and the redirect chain. A new
  request that names a predecessor writes itself into the predecessor's `redirectedTo`.
  `_finalRequest` follows those links to the end of the chain.
- `Route`: the interception actions `abort`, `fulfill` and `continue`. Each one sends exactly one
  call on the route's channel, except that `fulfill` sends nothing and fails when normalizing
  its argument fails. The proxy keeps no state of its own.
- `Response`: the `ok()` status test, the header copy, and `finished`/`body`/`text`/`json`. Each
  of these is one fresh round trip, with no cache.
- `Worker`: the handler of the channel's close notification. It removes the worker from its
  page's worker set and/or its browsing context's service-worker set, then emits a Close event.

How the model is built:

- Each proxy is a Dafny `class`. Fields the source never reassigns are `const`.
- A proxy's channel is a `calls: seq<Message>` field. Every outbound call appends one message.
- A remote answer (the base64 body, the error text of `finished`) is a parameter of the method
  that receives it.
- The library routines the proxies call are fields of an `Externals.Codecs` value, one arbitrary
  total function each. These are `Buffer`'s base64 and UTF-8 conversions, `JSON.parse` (which
  returns a success-or-error `Result`), `URLSearchParams` entry parsing, `headersArrayToObject`,
  `normalizeFulfillParameters` (which returns a `Result`, since it may fail) and
  `normalizeContinueOverrides`. The model makes no claim about what they compute.
- Termination of the redirect walk rests on a ghost `Network.Scope`. It records every request
  created so far and a creation counter, and each request has a ghost creation serial number.
  The invariant `Scope.Valid()` says, for every recorded request `r`:
  - `r` belongs to this scope, and its serial is below the counter;
  - a predecessor of `r` is recorded and has a smaller serial;
  - a successor of `r` is recorded, has a larger serial, and points back:
    `r.redirectedTo.redirectedFrom == r`.

  The `Request` constructor keeps this invariant.

Modules: `Wrappers` (Option, Result, Outcome), `Externals` (library and converter interfaces),
`Network` (network.ts), `Workers` (worker.ts).

## Model

| member | source | states |
|---|---|---|
| `Network.Request.constructor` | src/rpc/client/network.ts:75-82 | naming predecessor `from` makes `from.redirectedTo` the new request, and the new request becomes `from`'s final request; `from`'s failure text is unchanged; the new request's `redirectedFrom` is `from` and its `redirectedTo` is null; no other existing request's `redirectedTo` changes, so with no predecessor nothing changes; the chain invariant and the inverse links are kept |
| `Network.Request.Url` | src/rpc/client/network.ts:84-86 | the url is the initializer's url |
| `Network.Request.PostData` | src/rpc/client/network.ts:96-98 | null exactly when the initializer's encoded post data is absent or the empty string; otherwise the UTF-8 decoding of its base64 decoding |
| `Network.Request.PostDataBuffer` | src/rpc/client/network.ts:100-102 | null exactly when the encoded post data is absent or empty (line 81); otherwise its base64 decoding |
| `Network.Request.Headers` | src/rpc/client/network.ts:124-126 | equals the header object converted once from the initializer's header list; it is stored in a `const`, so successive calls agree |
| `Network.Request.ContentType` | src/rpc/client/network.ts:109-111 | present exactly when the `content-type` key exists with a non-empty value, and then equal to that value |
| `Network.Request.PostDataJSON` | src/rpc/client/network.ts:104-122 | null when the post data is null or empty, and null without a non-empty `content-type`; for exactly `application/x-www-form-urlencoded`, an entries object whose key set is the set of parsed keys without `__proto__` (a plain object's prototype setter swallows that assignment) and which maps each other key to the value of its last occurrence; for any other content type, the JSON parser's value, with its error propagated unchanged |
| `Network.LastWinsKeys` | src/rpc/client/network.ts:114-117 | the entries loop yields exactly one key per distinct parsed key other than `__proto__` |
| `Network.LastWinsValue` | src/rpc/client/network.ts:114-117 | a key other than `__proto__` whose last parsed occurrence is pair `i` maps to pair `i`'s value |
| `Network.LastWinsExample` | src/rpc/client/network.ts:113-118 | the pairs of `a=1&a=2&b=x` fold to `{a: "2", b: "x"}` |
| `Network.LastWinsProtoExample` | src/rpc/client/network.ts:114-117 | the pairs of `a=1&__proto__=x` fold to `{a: "1"}` |
| `Network.Request.RedirectedFrom` | src/rpc/client/network.ts:140-142 | returns the predecessor given at construction, which is a known request created earlier |
| `Network.Request.RedirectedTo` | src/rpc/client/network.ts:144-146 | returns the successor link; a non-null successor names this request as its `redirectedFrom` |
| `Network.Request.Failure` | src/rpc/client/network.ts:148-154 | null exactly when no failure text is set; otherwise an object carrying that text |
| `Network.Request.FinalRequest` | src/rpc/client/network.ts:156-158 | terminates, and returns a known request whose `redirectedTo` is null and which was created no earlier than this one |
| `Network.Request.Chain` | src/rpc/client/network.ts:156-158 | the requests `_finalRequest` visits: they start here, are linked by `redirectedTo` in one direction and by `redirectedFrom` in the other, end at a request with no successor, and have strictly increasing creation serials |
| `Network.RedirectFinalAgree` | src/rpc/client/network.ts:156-158 | when A's successor is B, A's final request is B's final request |
| `Network.ChainAcyclic` | src/rpc/client/network.ts:156-158 | the redirect chain visits no request twice |
| `Network.ChainFinal` | src/rpc/client/network.ts:156-158 | the chain ends at the final request, and every request on it has that same final request |
| `Network.ContinueMessage` | src/rpc/client/network.ts:183-190 | the continue call forwards the normalized method and headers; it carries post data iff the normalized overrides have some, and then as the base64 encoding of those bytes |
| `Network.ContinuePostDataRoundTrip` | src/rpc/client/network.ts:188 | when base64 encoding is inverted by decoding, the remote side decodes exactly the normalized post data bytes |
| `Network.Route.constructor` | src/rpc/client/network.ts:166-168 | a new route is bound to its request and has sent nothing |
| `Network.Route.Abort` | src/rpc/client/network.ts:174-176 | appends exactly one abort call carrying the optional error code, with no guard on earlier actions |
| `Network.Route.Fulfill` | src/rpc/client/network.ts:178-181 | when normalizing succeeds, appends exactly one fulfill call carrying the normalizer's output, with no guard on earlier actions; when it fails, sends nothing and returns the normalizer's error |
| `Network.Route.Continue` | src/rpc/client/network.ts:183-190 | appends exactly one continue call, the message `ContinueMessage` describes, with no guard on earlier actions |
| `Network.FulfillThenContinue` | src/rpc/client/network.ts:178-190 | when the fulfill argument normalizes, a fulfill followed by a continue on the same route dispatches both calls, in order |
| `Network.Response.constructor` | src/rpc/client/network.ts:206-209 | a new response is bound to its initializer and request and has sent nothing |
| `Network.Response.Headers` | src/rpc/client/network.ts:227-229 | equals the header object converted once from the initializer's header list, held in a `const` |
| `Network.Response.Ok` | src/rpc/client/network.ts:215-217 | `ok()` holds exactly for status 0 and for the 2xx status class (`status / 100 == 2`) |
| `Network.OkExamples` | src/rpc/client/network.ts:215-217 | statuses 0, 204 and 299 are ok; 301 and 404 are not |
| `Network.Response.Finished` | src/rpc/client/network.ts:231-236 | appends one wait call; yields an error exactly when the remote side reports a non-empty error text, and that text is the error's |
| `Network.Response.Body` | src/rpc/client/network.ts:238-240 | appends one body fetch and returns the base64 decoding of the remote answer |
| `Network.Response.Text` | src/rpc/client/network.ts:242-245 | appends one body fetch and returns the UTF-8 decoding of the fetched bytes |
| `Network.Response.Json` | src/rpc/client/network.ts:247-250 | appends one body fetch and returns the JSON parser's verdict on the text, with failure propagated |
| `Network.BodyFetchedTwice` | src/rpc/client/network.ts:238-240 | two body reads are two fetches, each decoding its own answer; nothing is cached |
| `Workers.Worker.constructor` | src/rpc/client/worker.ts:34-35 | a new worker has no owner and has emitted nothing |
| `Workers.Worker.Url` | src/rpc/client/worker.ts:45-47 | the url is the initializer's url unchanged |
| `Workers.Worker.OnClose` | src/rpc/client/worker.ts:36-42 | with a page set, the page's worker set loses this worker and only this worker; with a context set, the same holds for its service-worker set; with the worker already absent, the set is unchanged; nothing else is modified; exactly one Close event carrying this worker is appended, unconditionally |
| `Workers.DuplicateClose` | src/rpc/client/worker.ts:36-42 | two close notifications remove the worker once and emit Close twice |

## Left out

- The channel-owner base class, the guid registry and the `from`/`fromNullable` casts
  (network.ts:67-73, 198-204; worker.ts:30-32) are not modelled. Proxies refer to each other
  directly, and the `Request` constructor receives its predecessor as an already resolved object.
- `headersArrayToObject`, `normalizeFulfillParameters` and `normalizeContinueOverrides` are not
  visible to this model. They are uninterpreted functions, so nothing is claimed about
  lower-casing, duplicate header names or defaults.
- The `Buffer` base64 and UTF-8 conversions, `JSON.parse` and the `URLSearchParams` tokenisation
  are library calls. They are uninterpreted, and only the fold over the parsed entries is
  verified.
- Promises, the interleaving of in-flight calls, and the remote side's rejection of a late route
  action are concurrency or foreign behaviour. Each call completes in one step, and the remote
  answer is a parameter.
- The event emitter and the subscription to the channel's `close` event are not modelled.
  `Worker.OnClose` is the handler that the subscription would run, and `emitted` is the log of
  emitted events.
- `Worker.evaluate` and `evaluateHandle` are thin wrappers over argument serialisation and result
  parsing that this model does not include.
- `Request.response()` is a remote lookup followed by a cast, so it is not modelled.
- The cookie type declarations and the `frame()` accessors have no behaviour. They are left out.
- The plain initializer getters are read directly from the `init` const: `resourceType`,
  `method`, `isNavigationRequest`, and `url`, `status` and `statusText` of a response. The same
  holds for `Route.request()` and `Response.request()`, which are `const` fields.
- JavaScript's single `null` is two values here. A JSON body that parses to the literal `null` is
  `Parsed(JNull)`, which is distinct from the "no data" result.
- Statuses are unbounded integers. JavaScript's non-integer numbers are not modelled.
- `Network.Response.Finished`: returns the error text rather than an `Error` object.
- `Network.Request.PostDataBuffer`: returns an immutable byte sequence. In the source the
  accessor hands out the stored `Buffer` itself, which is shared and mutable. A caller that writes
  into it changes what later `postData()`, `postDataBuffer()` and `postDataJSON()` calls see.
  That aliasing is not modelled.
- `Network.Route.Continue`: `normalizeContinueOverrides` is taken to be total. It is called
  without `await`, and any exception it might throw is not modelled.
- The code keeps no route terminal state. A second action is dispatched like the first
  (`FulfillThenContinue`).
- The code does not de-duplicate close notifications. A repeated notification emits Close again
  (`DuplicateClose`).
- The close handler treats the page and the context independently. It does not assume that
  exactly one of them is set.
- When two requests name the same predecessor, the later one overwrites the predecessor's
  `redirectedTo`. The invariant is stated in the direction that survives this:
  `redirectedTo.redirectedFrom == this`.
