# Local development bridge: request dispatch and argument resolution

A Dafny model of the request pipeline in `cli/parser.js`, the HTTP
development server of a function-as-a-service runtime. For each inbound
request the server derives the pathname that names the target function,
resolves the function's positional and keyword arguments (from the query
string in offline mode, through the remote reflect service otherwise),
calls the function with a temporarily substituted process environment, and
turns the function's completion into an HTTP response.

Modules, one per part of the pipeline:

- `Wrappers`, `Js`: the `Option` wrapper and the JavaScript values the pipeline
  observes, with `typeof` and property access (which throws on `undefined`/`null`).
- `Config`: `serviceName` and `defaultFunction` taken from the package record.
- `Pathname`: the pathname derivation: leading slash, `split('?')[0]`
  (with `Split`/`Join` proved mutually inverse), and the root default.
- `Reflect`: the online resolver: `send`'s defaults and in-place header
  deletion (`HeaderTable`), collection of body chunks (`ChunkBuffer`), and
  classification of the reflect reply.
- `Responses`: the mapping from a completion to status, headers and body.
- `Dispatch`: the resolution callback `response(err, params)` and the call
  list `args.concat(kwargs, callback)`.
- `Invocation`: the process-wide environment swap around one invocation
  (`Process`), including the restore-before-respond order.

`JSON.parse`, `JSON.stringify`, `Buffer.prototype.toString` and `url.parse`
are library calls; they appear as function parameters (`parse`,
`stringify`, `decode`) or as inputs (`search`, `query`), with `None`
standing for a throw.

Behaviour worth noting in `cli/parser.js`:

- A resolution error does not yield a 400. The reflect client calls back
  with `params` undefined (`cli/parser.js:134`, `:143`), and line 48 reads
  `params.args` before the error check at line 50, so the handler throws a
  TypeError (`Dispatch.ResolutionErrorThrows`, `Invocation.Process.HandleResolved`).
  The throw happens inside an event listener and nothing in the file
  catches it, so the Node process ends. The 400 branch at lines 50-52 is
  reachable only when both an error and parameters are passed.
- The root path with no configured default stays `/`: line 44 appends the
  empty string.
- The reflect reply is not checked for `args` and `kwargs`: any parsed value
  is passed on. A reply that parses to `null` throws at line 48. A reply
  whose `args` is missing or not an array (`{}`, `{"args":"x"}`) gets past
  line 48; the loader call (line 55) and the environment swap (lines 58-59)
  then run, and the call at line 61 throws. No completion fires, so the
  saved environment is never restored (`Invocation.Process.Invoke`,
  `Invocation.MissingArgsLeaveOverride`).
- `args.concat(kwargs, callback)` spreads `kwargs` when it is an array, so
  the function then receives its elements, not the array (`Dispatch.CallList`).

## Model

| member | source | states |
|---|---|---|
| `Js.TypeOf` | cli/parser.js:71 | `typeof` reports "object" exactly for null, Buffers, arrays and plain objects |
| `Js.GetProperty` | cli/parser.js:48 | reading a property throws exactly on undefined and null; otherwise it yields the own field or undefined |
| `Config.FirstGiven` | cli/parser.js:26 | a chain of JavaScript or-operators ending in the empty string yields the first non-empty candidate, and the empty string exactly when none is given |
| `Config.ServiceName` | cli/parser.js:26 | the service name is `stdlib.name` if given, else `name` if given, else empty, and empty only when neither is given |
| `Config.DefaultFunction` | cli/parser.js:25-30 | the default function is `stdlib.defaultFunction` when given and empty exactly when it is not |
| `Pathname.Split` | cli/parser.js:43 | `split` yields at least one piece and no piece contains the separator |
| `Pathname.JoinSplit` | cli/parser.js:43 | joining the pieces of a split with the separator gives the original string back |
| `Pathname.SplitJoin` | cli/parser.js:43 | splitting a join of separator-free pieces gives the pieces back |
| `Pathname.SplitHead` | cli/parser.js:43 | the first piece is the prefix before the first separator, or the whole string when there is none |
| `Pathname.WithLeadingSlash` | cli/parser.js:42 | the result starts with `/`, is the URL or `/` + URL, and is the URL itself when it already starts with `/` (the empty URL becomes `/`) |
| `Pathname.StripQuery` | cli/parser.js:43 | the result is the prefix before the first `?`, contains no `?`, and is the whole path when there is no `?` |
| `Pathname.DerivePathname` | cli/parser.js:42-44 | the pathname is non-empty, starts with `/`, and contains no `?` when the default function has none |
| `Pathname.RootPathIff` | cli/parser.js:42-43 | before the default is applied the pathname is `/` exactly for the URLs `""`, `/`, `?…` and `/?…` |
| `Pathname.RootUsesDefault` | cli/parser.js:44 | every root URL maps to `/` + the default function |
| `Pathname.OtherPathsUnchanged` | cli/parser.js:44 | every other URL keeps its query-free path, which is not `/` |
| `Pathname.QueryIgnored` | cli/parser.js:43 | appending a query to a query-free path does not change the pathname |
| `Pathname.RootMatchesNamedDefault` | cli/parser.js:44 | `/` and `/<default>` name the same function when the default has no `?` |
| `Reflect.HeaderTable.constructor` | cli/parser.js:110 | a header object holds exactly the given entries |
| `Reflect.HeaderTable.Delete` | cli/parser.js:112-113 | `delete` removes one key in place and keeps every other entry |
| `Reflect.DeleteAll` | cli/parser.js:112-113 | deleting a list of keys removes exactly those keys, adds none, and keeps every other value |
| `Reflect.ReflectPath` | cli/parser.js:118 | the request path is `/stdlib/reflect` followed by the query string, which can be read back from it |
| `Reflect.PrepareSend` | cli/parser.js:108-120 | search, method, headers and body default to `''`, `GET`, a fresh `{}` and empty bytes; the caller's header object itself loses `accept-encoding` and `host` and nothing else; the request goes to f.stdlib.com:443 at `/stdlib/reflect` + search |
| `Reflect.FlattenAppend` | cli/parser.js:125-128 | concatenating chunk lists concatenates their bytes |
| `Reflect.ChunkBuffer.constructor` | cli/parser.js:123 | the chunk list starts empty |
| `Reflect.ChunkBuffer.Push` | cli/parser.js:125 | a chunk is appended, and the collected bytes grow by exactly that chunk |
| `Reflect.ChunkBuffer.Concat` | cli/parser.js:128 | `Buffer.concat` yields the bytes of all chunks in order |
| `Reflect.ReflectRequest` | cli/parser.js:148-159 | the client's collected body bytes, query string and method are forwarded, and its header object loses the two stripped headers |
| `Reflect.Classify` | cli/parser.js:126-143 | a transport failure gives `Could not connect to stdlib reflect`; a reply succeeds exactly when it parses and then passes the parsed value on; a failed parse gives `Unexpected stdlib reflect response: ` followed by the raw text |
| `Reflect.ErrorsDistinguishable` | cli/parser.js:134-143 | a resolution error has the connection message exactly when the transport failed |
| `Reflect.NotJsonExample` | cli/parser.js:131-135 | the reply `not-json` yields an error whose message carries `not-json` |
| `Responses.ErrorResponse` | cli/parser.js:66-68 | an error reply is 400, `text/plain`, body `Error: ` + message, and the message can be read back from the body |
| `Responses.SerialisedExactly` | cli/parser.js:71 | a result is serialised exactly when it is null, an array or a plain object |
| `Responses.Marshal` | cli/parser.js:66-80 | status 400 exactly on an error and 200 exactly on success; on success the supplied headers are passed through; Buffers and non-object results are sent raw; object results are sent as their JSON text, or `{}` when serialisation throws |
| `Responses.UnserialisableGivesEmptyObject` | cli/parser.js:74-79 | a structured result that cannot be serialised gives status 200 and body `{}` |
| `Responses.BoomExample` | cli/parser.js:66-68 | the error `boom` gives exactly status 400, `text/plain`, `Error: boom` |
| `Dispatch.OfflineParams` | cli/parser.js:88 | offline parameters have empty `args`, the query as `kwargs`, remote address `::1`, and no other fields |
| `Dispatch.ModulePath` | cli/parser.js:55 | the loader is asked for `.` followed by the pathname |
| `Dispatch.ErrOf` | cli/parser.js:134-143 | the resolver passes an error exactly on a resolution error, carrying its message |
| `Dispatch.ParamsOf` | cli/parser.js:134-143 | the resolver passes undefined parameters on an error and the parsed reply otherwise |
| `Dispatch.OnResolved` | cli/parser.js:46-61 | the callback throws exactly when `params` is undefined or null (line 48); it replies 400 exactly when an error comes with parameters; it goes on to invoke exactly when there is no error and `params` is defined, with `.` + pathname, `params.args` and `params.kwargs` (undefined when absent) |
| `Dispatch.CallList` | cli/parser.js:61 | the call list is the positional arguments, then `kwargs` (its elements when it is an array), then the completion callback, which appears only last |
| `Dispatch.ResolutionErrorThrows` | cli/parser.js:48-50 | a resolution error makes the handler throw before the 400 branch |
| `Dispatch.OfflineInvocation` | cli/parser.js:87-88 | an offline request calls the function with the query mapping and then the callback |
| `Dispatch.OnlineInvocation` | cli/parser.js:131-137 | a reply that parses to `{args, kwargs}` calls the function with those args, then kwargs, then the callback |
| `Dispatch.OnlineExample` | cli/parser.js:61 | the reply `{"args":[1,2],"kwargs":{"a":"b"}}` calls the function with 1, 2, `{a: "b"}` and the callback |
| `Dispatch.NullReplyThrows` | cli/parser.js:48 | a reply that parses to `null` makes the handler throw |
| `Invocation.Process.constructor` | cli/parser.js:10-13 | the process starts on its own environment, with the configured override and an empty event trace |
| `Invocation.Process.Invoke` | cli/parser.js:55-61 | the module is loaded, the current environment saved and the override installed, in that order; the function is applied to the call list exactly when `args` is an array; otherwise the call throws with the override still installed and nothing to restore it |
| `Invocation.Process.Complete` | cli/parser.js:61-80 | on completion the saved environment is restored before the response is written, and the response is the marshalled completion |
| `Invocation.Process.HandleResolved` | cli/parser.js:46-64 | a throw at line 48 (exactly for undefined or null params) changes neither the environment nor the output; an error with params writes the 400 and leaves the environment alone; otherwise the module `.` + pathname is loaded and the override installed, and exactly when `params.args` is an array the function is applied to `params.args.concat(params.kwargs, callback)` with the prior environment saved for the completion; otherwise the call throws with the override left in place |
| `Invocation.Process.InvokeOnce` | cli/parser.js:55-83 | a single invocation with array arguments runs under the override, restores before writing, and leaves the environment as it found it |
| `Invocation.OverlappingInvocations` | cli/parser.js:57-64 | two overlapping invocations completed in start order leave the process on the override environment |
| `Invocation.MissingArgsLeaveOverride` | cli/parser.js:48-61 | the reply `{}` leaves the process on the override environment for good |

## Left out

- HTTP and HTTPS plumbing (`http.createServer`, `server.listen`, `https.request`, the `data`/`end`/`error` event wiring): network I/O; only what is done with the collected bytes and the reply is modelled.
- Reading `env.json` (lines 10-13): file I/O; the override environment is a constructor argument of `Invocation.Process`.
- The `f` module loader and its cache switch (lines 7, 16, 55): a foreign library; only the module path it is asked for is modelled, not lookup or a loader failure.
- `url.parse`, `JSON.parse`, `JSON.stringify`, `Buffer.prototype.toString`: library calls, taken as inputs or function parameters.
- `Invocation.Process.HandleResolved`: an uncaught throw ends the Node process; the model stops at `Uncaught` (or `ThrewAfterSwap`) and does not model the process ending or any other pending request being lost.
- Console and `chalk` output (lines 33-36, 48, 96-98): output only; the `JSON.stringify` in the log line at 48 is taken not to throw.
- `check` (lines 101-105): it only calls `send` with every argument absent, which `Reflect.PrepareSend` covers.
- Interleaving of concurrent requests: only one invocation is verified in full; `Invocation.OverlappingInvocations` shows one interleaving that leaks the override.
- A transport `error` event that fires after a reply has started (which would call the callback twice) is not modelled.
- Numbers are integers (no NaN or fractions); package fields and header values are strings only; `err` is always an Error carrying a message.
- `Responses.Marshal`: a raw body is the value handed to `res.end`; how Node encodes or rejects non-string, non-Buffer values there is not modelled.
- `Js.GetProperty`: properties other than a plain object's own fields (indices and `length` of strings and arrays, inherited properties) are not modelled; only `args` and `kwargs` are read.
