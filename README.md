# Twirp protocol runtime (ts-twirp), modelled in Dafny

This project models the protocol runtime of a TypeScript binding for Twirp, an
RPC protocol that runs over HTTP POST. It covers three parts:

- **Error model** (`Errors.dfy`). The seventeen error codes and their
  snake_case wire strings. The code-to-HTTP-status table, whose `default`
  branch returns 0 for any string outside the enum. The validity test, the
  five error classes, and the mapper for HTTP statuses that come from
  intermediaries. The status numbers are those of RFC 9110, section 15, and
  429 is from RFC 6585, section 4.
- **Server dispatcher** (`ServerRuntime.dfy`). `handleRequest` runs a fixed
  chain of checks, and each check ends the request when it fails: POST only,
  a Content-Type header, a recognised Content-Type, a route, the body read,
  then the handler. The response is a `Response` class whose fields
  (`statusCode`, `headers`, `body`, `ended`) are updated in place by
  `SetHeader`, `End` and `WriteError`. `GetRequestData` buffers the body's
  chunks in a loop.
- **Client transport** (`Client.dfy`). Path formation, the framing of every
  call, buffering of the response, the split on status 200, and the decoding
  of the error envelope. `KeyCase.dfy` models `jsonToMessageProperties`, the
  snake_case to camelCase rewrite of the keys of a JSON response.
  `Protocol.dfy` proves that the server's error framing and the client's
  decoding round-trip.

Shared pieces: `Wrappers.dfy` (Option, Result), `Json.dfy` (parsed JSON
values, property lookup, JavaScript's `String()` of a value), and `Http.dfy`
(header values, stream events, `Buffer.concat`, and `Settle`, which is what a
promise fed by a stream's 'data'/'end'/'error' events settles to).

Inputs instead of I/O:

- The router is a function value from (url, content type) to an optional handler.
- A handler is a function from the request bytes to the outcome of its
  promise: it resolves with a payload, rejects with what was thrown, or never
  settles.
- Request and response bodies are sequences of stream events.
- `JSON.parse` is a parameter `parse: seq<byte> -> Option<Json>`, where `None`
  stands for a SyntaxError.

Where the code and its description differ, the model follows the code:

- `twirpErrorFromIntermediary` has no `break` statements. As written, every
  status outside 300..399 falls through to `default` and gives `unknown`. The
  comments beside the labels only name the HTTP statuses; the table the
  switch would give if every `case` ended with `break` is a different one.
  `IntermediaryFallThroughGap` proves the two differ at exactly the eight
  statuses that have a `case` label.
- `serverHTTPStatusFromErrorCode` returns 0 for an unknown string instead of
  failing.
- On an error status, `getTwirpError` throws inside the 'end' listener, so the
  callback is never called, in three cases: the body is not JSON (SyntaxError),
  it is `null`, or its `msg` is an object with its own "toString" property
  (TypeError, from `new Error(json.msg)`), also inside an array. This is
  modelled as `Uncaught`. Any other JSON value reaches the callback: a string
  body, `{}` or an array gives an Error with no name and an empty message.
- A handler that throws a value that is not an object (`throw "x"`) makes
  `'isTwirpError' in error` throw after the JSON Content-Type is set, so the
  response is never ended. A handler whose promise never settles leaves the
  request unanswered, as a body stream that never ends does.
- `writeError` tests `'isTwirpError' in error` and reads
  `twirpError.statusCode` (src/server-runtime.ts:97,103). Neither exists on
  the classes in src/errors.ts. The model treats an error built by those
  classes as a Twirp error `{code, message}` whose status is
  `serverHTTPStatusFromErrorCode(code)`. That is what the server's tests
  observe (test/index.test.ts:119-125). Any other `Error` becomes `internal`.
- On success the Content-Type header is set to the content-type enum's numeric
  tag (0 or 1), not to a MIME string (src/server-runtime.ts:75).

## Model

| member | source | states |
|---|---|---|
| Errors.Wire | src/errors.ts:5-90 | every wire string is non-empty lower-case snake_case text |
| Errors.FromWire | src/errors.ts:5-90 | a code decoded from a wire string has that wire string |
| Errors.FromWireIff | src/errors.ts:5-90 | a wire string decodes to code c exactly when it is c's wire string: the 17 strings are pairwise distinct |
| Errors.WireInjective | src/errors.ts:5-90 | distinct codes have distinct wire strings |
| Errors.ServerHTTPStatusFromErrorCode | src/errors.ts:140-179 | the status is 0 exactly for strings outside the enum, and otherwise lies in 400..599 |
| Errors.HttpStatus | src/errors.ts:140-175 | every code of the enum maps to a status in 400..599, never 0 |
| Errors.StatusTable | src/errors.ts:140-175 | the fixed table: canceled 408, unknown 500, invalid_argument 400, …, data_loss 500 |
| Errors.StatusZeroOnlyOutsideEnum | src/errors.ts:176-177 | the `return 0` branch is reached exactly by strings that are no code's wire string |
| Errors.StatusNotInjective | src/errors.ts:142-149 | canceled and deadline_exceeded both give 408: the status does not determine the code |
| Errors.IsValidErrorCode | src/errors.ts:181-184 | valid exactly when the string is the wire string of some code |
| Errors.NotFoundError | src/errors.ts:93-98 | name not_found, the given message, status 404 |
| Errors.InvalidArgumentError | src/errors.ts:103-108 | name invalid_argument, the given message, status 400 |
| Errors.RequiredArgumentError | src/errors.ts:113-118 | name invalid_argument, message "<argument> is required", status 400 |
| Errors.InternalServerError | src/errors.ts:122-127 | name internal, the given message, status 500 |
| Errors.BadRouteError | src/errors.ts:130-135 | name bad_route, the given message, status 404 |
| Errors.TwirpErrorFromIntermediary | src/errors.ts:188-213 | with the fall-through as written: internal for 300..399, unknown for every other status |
| Errors.IntermediaryFallThroughGap | src/errors.ts:193-209 | the result differs from the table a `break` after each case would give exactly at 400, 401, 403, 404, 429, 502, 503, 504, where it is unknown |
| Json.Get | src/client.ts:61-63 | property lookup on a parsed object: absent exactly when no member has the key, else the value of the last member with it |
| Http.Concat | src/server-runtime.ts:84 | the concatenation's length is the sum of the chunk lengths |
| Http.ConcatAppend | src/server-runtime.ts:84 | concatenating chunks splits at any point: every chunk keeps its place and order |
| Http.Settle | src/server-runtime.ts:79-91 | the promise resolves only if the stream has an 'end' event, and rejects only with the error of one of its 'error' events |
| Http.SettleAfterData | src/server-runtime.ts:82-86 | after a run of data events, their chunks in order go in front of what the rest of the stream settles to |
| Http.SettleAtFirstTerminal | src/server-runtime.ts:79-91 | the first 'end' resolves with the concatenation of every earlier chunk; the first 'error' rejects with that error |
| Http.SettleWithoutTerminal | src/server-runtime.ts:79-91 | a stream with neither 'end' nor 'error' leaves the promise pending |
| ServerRuntime.Tag | src/server-runtime.ts:4-8 | Protobuf is 0, JSON is 1 and Unknown is 2, and no two members share a number |
| ServerRuntime.GetContentType | src/server-runtime.ts:16-25 | Protobuf exactly for 'application/protobuf', JSON exactly for 'application/json', Unknown for any other value or undefined |
| ServerRuntime.Envelope | src/server-runtime.ts:104-109 | the error body is an object whose `code` is the code's wire string and whose `msg` is the message |
| ServerRuntime.Normalize | src/server-runtime.ts:96-101 | a Twirp error is sent as it is; any other error becomes internal (500) with its original message; a thrown non-object gives none, as the `in` test throws |
| ServerRuntime.ErrorResponse | src/server-runtime.ts:93-110 | writeError leaves the envelope of the normalized error, or, exactly for a thrown non-object, only the JSON content type |
| ServerRuntime.Response.constructor | src/server-runtime.ts:29 | a fresh response has Node's default status 200, no headers, no body, and is not ended |
| ServerRuntime.Response.SetHeader | src/server-runtime.ts:94 | the header is set to the value and nothing else changes |
| ServerRuntime.Response.End | src/server-runtime.ts:104-109 | the body is the one given, the response is ended once more, and status and headers are unchanged |
| ServerRuntime.Response.WriteError | src/server-runtime.ts:93-110 | Content-Type application/json, then status of the error's code, the envelope as body, response ended once more; for a thrown non-object only the Content-Type, the response left open |
| ServerRuntime.GetRequestData | src/server-runtime.ts:79-91 | the chunk-buffering loop settles exactly as `Settle`: chunks concatenated in arrival order, or the stream's error |
| ServerRuntime.Admit | src/server-runtime.ts:33-57 | passes exactly when the method is POST, the Content-Type is present, non-empty and recognised, and the router has a handler; every failure is bad_route (404) |
| ServerRuntime.HandlerCalls | src/server-runtime.ts:59-73 | the handler runs at most once, and exactly when every check passed and the body resolved |
| ServerRuntime.Respond | src/server-runtime.ts:27-77 | a failed check is answered with that check's error; a payload reply carries the negotiated, known content type and needs a body that ended |
| ServerRuntime.HandleRequest | src/server-runtime.ts:27-77 | the response shows `Respond(req, router)`: one error write, or the handler's payload under the content-type tag, or nothing when the body or the handler's promise never settles, or only the JSON content type after a thrown non-object; the handler runs `HandlerCalls` times |
| ServerRuntime.NonPostRejected | src/server-runtime.ts:33-39 | a non-POST method M gives bad_route "unsupported method M (only POST is allowed)", whatever the url, headers, body or router |
| ServerRuntime.MissingContentTypeRejected | src/server-runtime.ts:41-45 | an absent or empty Content-Type gives bad_route "missing Content-Type header", whatever the router |
| ServerRuntime.UnexpectedContentTypeRejected | src/server-runtime.ts:47-51 | an unrecognised Content-Type V gives bad_route "unexpected Content-Type: V", with V verbatim |
| ServerRuntime.UnroutedPathRejected | src/server-runtime.ts:53-57 | a url U without a handler gives bad_route "no handler for path U" |
| ServerRuntime.UnansweredOnlyWhilePending | src/server-runtime.ts:59-73 | the request goes unanswered exactly when every check passed and then the body stream neither ended nor failed, or the handler's promise never settled |
| ServerRuntime.AbandonedOnlyOnPrimitiveThrow | src/server-runtime.ts:67-97 | the response is left open with only the JSON content type exactly when the handler throws a non-object |
| ServerRuntime.BodyReadFailure | src/server-runtime.ts:59-65 | a failing body stream gives internal (500) with the stream's message, and the handler is not run |
| ServerRuntime.HandlerFailure | src/server-runtime.ts:67-73 | a thrown Twirp error is sent unchanged; any other thrown Error becomes internal with its message; a thrown non-object leaves the response open |
| ServerRuntime.SuccessReply | src/server-runtime.ts:67-76 | a success reply happens exactly when the handler resolves on the delivered body, and it carries that payload under the negotiated content type |
| Client.BasePath | src/client.ts:14 | the base path is "/twirp/" followed by the service's full name without its first character |
| Client.MethodPath | src/client.ts:31 | the method name is read back from the path it forms |
| Client.ClientParams | src/client.ts:10-15 | the transport gets the host and port as given and the path "/twirp/" + the full name without its first character |
| Client.ClientSendsToServicePath | src/client.ts:11-31 | a client for service ".N" posts method M to "/twirp/N/M" on its host |
| Client.MethodFromPath | src/client.ts:31 | the method name read back from a path is the path minus the base path and the slash |
| Client.MethodPathIff | src/client.ts:31 | a call path determines its method name and the method name determines the path |
| Client.ServicePrefix | src/client.ts:14 | a service with full name "." + N is served under "/twirp/" + N + "/", and its method M under "/twirp/" + N + "/" + M |
| Client.HaberdasherPrefix | src/client.ts:14 | the example service's prefix is "/twirp/twitch.twirp.example.Haberdasher/" |
| Client.Frame | src/client.ts:28-36 | POST to the method's path, Content-Type application/protobuf, Content-Length equal to the body's length, and the body is the request data |
| Json.JsString | src/client.ts:62 | `String()` of a parsed value throws exactly when an object with its own "toString" property is reachable through arrays; a string is itself and an object otherwise "[object Object]" |
| Client.ErrorMessage | src/client.ts:62 | an Error's message is the `msg` string, empty when `msg` is absent, and `new Error` throws exactly when `String(msg)` does |
| Client.GetTwirpError | src/client.ts:60-66 | succeeds exactly when the body parses to a non-null value whose `msg`, if present, converts to a string; otherwise SyntaxError exactly for a body that is not JSON, else TypeError; the name is the envelope's `code` and the message its `msg` |
| Client.Complete | src/client.ts:37-52 | when the callback is called, it gets an error or data, never both and never neither |
| Client.Call | src/client.ts:25-58 | sends `Frame(…)`, and its chunk-buffering loop completes exactly as `Complete` |
| Client.StatusSplit | src/client.ts:41-45 | status 200 hands over the buffered body; any other status hands over a decoded error (or throws) and never data |
| Client.ResponseBodyInOrder | src/client.ts:38-40 | the data handed over is every chunk before 'end', concatenated in order |
| Client.TransportErrorsPassThrough | src/client.ts:47-52 | request and response stream errors reach the callback unchanged, not as decoded Twirp errors |
| Client.NonEnvelopeReachesCallback | src/client.ts:60-66 | an error status whose body is a JSON string reaches the callback as an Error with no name and an empty message |
| Client.UnprintableMessageUncaught | src/client.ts:62 | an error status whose `msg` is an object with its own "toString" property throws inside the 'end' listener: the callback is never called |
| Protocol.EnvelopeRoundTrip | src/client.ts:60-66 | getTwirpError on the envelope writeError sends recovers name = the code's wire string (which decodes back to the code) and message = msg |
| Protocol.ErrorReplyReachesCaller | src/client.ts:41-42 | an error reply written on a fresh response has its code's status, never 200, and reaches the caller as an error with the same code and message, never as data |
| Protocol.ThrownErrorReachesCaller | src/server-runtime.ts:67-73 | a handler throwing a plain Error leaves status 500 on a fresh response, and the caller receives an error named "internal" carrying the thrown message |
| Protocol.SuccessReachesCaller | src/client.ts:43-44 | a binary success reply written on a fresh response keeps status 200 and reaches the caller as exactly the handler's bytes |
| KeyCase.SnakeToCamelIsCamel | src/client.test.ts:19-38 | no rewritten key has an underscore before a lower-case letter |
| KeyCase.CamelUnchanged | src/client.test.ts:19-38 | a key already in camelCase is left unchanged |
| KeyCase.SnakeToCamelIdempotent | src/client.test.ts:19-38 | rewriting a key twice is rewriting it once |
| KeyCase.NoUnderscoreUnchanged | src/client.test.ts:11 | a key without underscores (key, bool, value) is unchanged |
| KeyCase.SnakeRoundTrip | src/client.test.ts:7 | on lower snake_case keys, camelCase back to snake_case gives the original key, so no two such keys collide |
| KeyCase.TwoHumpExample | src/client.test.ts:7 | a_long_key becomes aLongKey |
| KeyCase.NestedThingExample | src/client.test.ts:8 | nested_thing becomes nestedThing |
| KeyCase.SomeNumberExample | src/client.test.ts:9 | some_number becomes someNumber |
| KeyCase.DeeperNestingExample | src/client.test.ts:10 | deeper_nesting becomes deeperNesting |
| KeyCase.ArrayKeyExample | src/client.test.ts:14 | array_key becomes arrayKey |
| KeyCase.NotThereExample | src/client.test.ts:14 | not_there becomes notThere |
| KeyCase.PlainExamples | src/client.test.ts:14 | key, bool and value are unchanged |
| KeyCase.Recase | src/client.test.ts:19-38 | arrays stay arrays of the same length, objects stay objects of the same size with each of their own keys recased, and every other value is returned as it is |
| KeyCase.RecaseRecasedFrom | src/client.test.ts:19-38 | the rewrite replaces every key at every depth by its camelCase form, in place, and changes nothing else |
| KeyCase.RecasedFromUnique | src/client.test.ts:19-38 | any value so related to the input is the rewrite's result: the relation determines the output |
| KeyCase.JsonToMessageProperties | src/client.test.ts:17 | defined exactly when the response parses; the result is the parsed value with every key at every depth recased in place, hence of the same shape and with only camelCase keys |
| KeyCase.RecaseSameShape | src/client.test.ts:19-38 | same node kind at every position, same sizes and order, and every string, number, boolean and null unchanged |
| KeyCase.RecaseCamelKeys | src/client.test.ts:19-38 | after the rewrite every key, at every depth, is camelCase |
| KeyCase.RecaseKeepsCamel | src/client.test.ts:19-38 | a value whose keys are all camelCase is returned unchanged |
| KeyCase.RecaseIdempotent | src/client.test.ts:19-38 | rewriting a rewritten value changes nothing |
| KeyCase.RecaseWithoutUnderscores | src/client.test.ts:27-37 | a value with no underscore in any key is returned unchanged |
| KeyCase.TestVector | src/client.test.ts:4-39 | the test's response is rewritten to exactly the expected message properties |

## Left out

- src/run.ts (the code generator CLI), test/async-server.ts and the build and lint configuration are not part of this model.
- Node's `http` module, its event emitters, promises and `async`/`await` are replaced by sequences of stream events and `Result` values. Node's case-insensitive header names and its refusal of a second `end` are not modelled.
- Text-level JSON is not modelled: `JSON.stringify`, the escaping done by `JSON.parse`, UTF-8 decoding, and byte lengths of serialized text. This is why the `content-length` of 44 in the JSON end-to-end test is not covered. The server's error body is kept as a JSON value, and the client's `parse` is a parameter.
- protobufjs wiring (`service.create`, the `RPCImpl` type) and protobuf encoding of payloads are not modelled; request data is a byte sequence. The `rpcHandlers` argument of a handler is bound into the handler's function value.
- Client.ErrorMessage: numbers are modelled as integers, so `String()` of a fractional or very large number, which prints as exponent form, is not modelled.
- ServerRuntime.HandlerFailure: a thrown object that is not an `Error` (`throw {}`) is treated like an `Error` with that message; its `message` property being absent or not a string is not modelled.
- The JSON call mode's parsing and `jsonToMessageProperties`'s own source are not shown in src/client.ts. The rewrite rule is taken from the test: an underscore followed by a lower-case ASCII letter becomes that letter in upper case. Any other character, including a trailing underscore, is kept.
- KeyCase.Recase: objects are sequences of members. If two distinct keys rewrite to the same camelCase key, a JavaScript object would keep only one; that collapse is not modelled. `SnakeRoundTrip` shows it cannot happen for lower snake_case keys.
- The intended intermediary table in the comments of `twirpErrorFromIntermediary` is not treated as behaviour. It appears only in the lemma that compares it with the real result. The `msg` and `bodyOrLocation` parameters have no effect on the result.
- Concurrency between requests is not modelled. Each request or call is modelled on its own.
