# httpz, modelled in Dafny

This project models the core of httpz, a thin layer over Go's `net/http`.

- **ServeMux** (`mux.dfy`, with the handler chains in `chains.dfy`). It is a router node. It holds:
  - node-level middleware;
  - groups of child nodes under path prefixes;
  - a centralized ErrHandler;
  - the dispatch table of an embedded `http.ServeMux`.

  A master node mounts its whole tree of groups once, on its first request. Serving a request is stated as a trace of events, so ordering and error-handling properties become sequence equalities:
  - a middleware entered or left;
  - a handler run;
  - a guard answering;
  - an ErrHandler called with a given error;
  - a 404 or a 405.

  The behaviours the package's tests check are proved in `mux_examples.dfy` on objects built the same way.
- **HTTPError** (`errors.dfy`, with the JSON body in `json.dfy`). It covers:
  - the error object, whose internal error is set in place;
  - its `Error()` text;
  - the forty predefined errors that the package shares as globals;
  - the default ErrHandler.
- **The two response-writer wrappers**:
  - `ResponseWriter` (`rw.go`) records the committed status;
  - `HelperResponseWriter` (`helper_writer.go`) adds the response helpers.

  Both search the `Unwrap` chain for Flush, Hijack and Push (`capability.dfy`). They wrap a model of the `net/http` writer (`net_http.dfy`).
- **Four middlewares**:
  - AllowContentEncoding, a whitelist check of Content-Encoding per section 8.4 of RFC 9110;
  - PageRoute;
  - PathRewrite;
  - Sunset, the Sunset and Deprecation headers of RFC 8594 with dates in the IMF-fixdate format of section 5.6.7 of RFC 9110. The proleptic Gregorian calendar that `time.Time.Format` writes dates in is `calendar.dfy`: a day count and a date are proved to convert into each other both ways.

`text.dfy` holds the pieces of Go's `strings` and `fmt` that the core uses: `%d`, TrimSuffix, ToLower, EqualFold, TrimSpace and Index.

Go code that changes objects in place is modelled as Dafny classes:
- `ServeMux`;
- `HTTPError`;
- both writers;
- the `net/http` writer and request.

Pure code is modelled as functions:
- `Error()`;
- the lookup;
- calling a handler chain;
- the middleware decisions.

Each loop of the source is a method with invariants, proved against a function that specifies it:
- the descending loop of ServeHTTP;
- the loop of `use`;
- the capability walks;
- the whitelist loops;
- the loop over Sunset's links.

The forty predefined errors of `error.go` are a `var (...)` block, one `helper` call per error, not a loop. `Errors.NewErrors` stands for that block: its loop creates the same forty objects in the same order.

## Model

| member | source | states |
|---|---|---|
| Mux.ServeMux.constructor | http.go:30-37 | NewServeMux is the only way to get a master node. The node has the default ErrHandler, no middleware, no groups and an empty table, and it is not mounted yet. |
| Mux.ServeMux.Child | http.go:81-85 | The node Group creates has the ErrHandler it is given, no middleware and no groups. It is never a master. |
| Mux.ServeMux.Use | http.go:150-152 | The middleware is appended to `mws` in argument order. Nothing else about the node changes: groups, table, flags and ErrHandler stay as they were. |
| Mux.ServeMux.Group | http.go:80-92 | It requires the prefix to be new, because a second Group with the same prefix panics. `groups` gains exactly that prefix, mapped to a fresh non-master child. The child has empty middleware, groups and table, and the parent's ErrHandler as it is at the time of the call. The tree stays finite. |
| Mux.ServeMux.HandleFunc | http.go:40-45 | The pattern is bound to the closure around the handler. That closure hands the handler's error to the node's ErrHandler. |
| Mux.ServeMux.Register | http.go:95-97 | A method helper registers "<METHOD> <path>", bound to the handler wrapped by `use` in the route middleware. |
| Mux.ServeMux.Get | http.go:95-98 | The route is filed under "GET <path>". |
| Mux.ServeMux.Head | http.go:100-103 | The route is filed under "HEAD <path>". |
| Mux.ServeMux.Post | http.go:105-108 | The route is filed under "POST <path>". |
| Mux.ServeMux.Put | http.go:110-113 | As written, the route is filed under "GET <path>", not "PUT <path>". |
| Mux.ServeMux.PutCorrected | http.go:110-113 | The route is filed under "PUT <path>". |
| Mux.ServeMux.Patch | http.go:115-118 | The route is filed under "PATCH <path>". |
| Mux.ServeMux.Delete | http.go:120-123 | The route is filed under "DELETE <path>". |
| Mux.ServeMux.Connect | http.go:125-128 | The route is filed under "CONNECT <path>". |
| Mux.ServeMux.Options | http.go:130-133 | The route is filed under "OPTIONS <path>". |
| Mux.ServeMux.Trace | http.go:135-138 | The route is filed under "TRACE <path>". |
| Mux.ServeMux.AddToMux | http.go:48-54 | Every node of the subtree ends with each of its groups mounted under its prefix, as StripPrefix of the prefix without its trailing '/'. The tables of all other nodes are unchanged. |
| Mux.ServeMux.MountChild | http.go:49-52 | Post-order: the child mounts its whole subtree before the parent registers the child under its prefix. |
| Mux.ServeMux.SetErrHandler | http.go:22 | Assigning the exported ErrHandler field replaces the node's ErrHandler and changes nothing else. |
| Mux.ServeMux.Handle | http.go:52 | The pattern is bound to the entry, and no other table changes. |
| Mux.ServeMux.MountOnce | http.go:59-63 | The tree is mounted only by a master whose once-flag is unset, and the flag is then set. On every other call, all tables stay as they were. |
| Mux.ServeMux.ServeHTTP | http.go:57-77 | It mounts as MountOnce does, then yields exactly the trace `Served` specifies. The node's middleware, ErrHandler and groups are unchanged. |
| Mux.ServeMux.ServeChain | http.go:65-76 | The descending loop builds `mws[0](mws[1](…(toFunc)))`. The trace is that chain's run followed by one call of the node's ErrHandler with the chain's error. |
| Mux.ServeMux.Invoke | http.go:154-159 | Running the chain built by the loop gives the outcome of its specification. The `toFunc` adapter runs the dispatch and returns nil. |
| Mux.ServeMux.Dispatch | http.go:67-69 | The embedded ServeMux yields the trace `Dispatched` specifies. That is a 404, a 405, a route with its ErrHandler call, or a mounted child serving the stripped path. |
| Mux.StripPrefix | http.go:51-52 | Stripping succeeds exactly when the path starts with the prefix, and prefix plus rest gives back the path. |
| Mux.MountedPath | http.go:51-52 | A child mounted at a prefix ending in '/' sees the path from that '/' on, so the path it sees still starts with '/'. |
| Mux.Lookup | http.go:67-69 | A match is always the entry of a pattern that matches the path or a subtree of it for this method. There is no match exactly when no candidate matches for this method. Then the answer is 405 exactly when a pattern for another method, standard or not, matches the path or a subtree of it, and 404 otherwise. |
| Mux.LongestFrom | http.go:67-69 | The subtree lookup finds nothing exactly when no candidate matches. Otherwise it returns the match of a candidate above which none matches, so the longest one. |
| Mux.RouteKeyPath | http.go:95-97 | The path part of a pattern a method helper registers is the path it was given. |
| Mux.CustomMethodSubtree | http.go:67-69 | A subtree pattern under a non-standard method, "LIST /files/", answers GET /files/a with 405. |
| Mux.LookupExact | http.go:95-97 | A pattern "<METHOD> <path>" registered for exactly the request's method and path is the one that serves it. |
| Mux.LookupEmpty | http.go:20-21 | A dispatch table with no patterns answers every request with 404. |
| Mux.LookupMount | http.go:51-52 | A path below the only pattern of a table, when that pattern ends in '/', is served by that pattern's entry. |
| Mux.PutOnGetRoute | http.go:110-113 | A PUT request for a path registered by Put is answered 405, and a GET request for it is served. |
| Mux.NodeChainOrder | http.go:71-76 | Without a guard, the node middleware is entered in registration order and left in reverse around the dispatch, and the final ErrHandler call sees nil. The first guard answers, nothing inside it runs, and its error goes to the ErrHandler. |
| Mux.DispatchedRoute | http.go:40-45 | A route runs its chain once and hands the chain's error to the node's ErrHandler. |
| Mux.RouteServed | http.go:57-77 | On a node without guards, the route's trace is, in order: node middleware in, route middleware in, handler, route middleware out, ErrHandler with the handler's error, node middleware out, ErrHandler with nil. |
| Mux.RouteErrorHandledOnce | http.go:75-76 | A request served by a route calls an ErrHandler exactly twice: once from the route's closure and once, with nil, at the end of ServeHTTP. So the handler's error reaches the ErrHandler exactly once. |
| Mux.DispatchedMount | http.go:51-52 | Whenever the lookup finds a mounted child, the child is a younger node of the tree. It serves the path with the strip prefix cut off, or the request is answered 404 when the path lacks that prefix. |
| Mux.MountServed | http.go:48-54 | A request that reaches a mounted child, on a parent without guards: the parent's middleware is entered, the child serves the stripped path (or 404), the parent's middleware is left, and the parent's ErrHandler is called with nil. |
| Mux.SoleMountServed | http.go:49-52 | On a node whose only pattern is a mounted group, a request below the prefix is served by the child from the prefix's trailing '/' on. |
| Mux.ServedErrs | http.go:75-76 | On a node without guards, ServeHTTP's own ErrHandler call comes after every other one and sees nil. |
| Mux.ErrorHandledOnce | http.go:40-45 | In a tree without guards, a request that reaches a route hands that route's error to an ErrHandler exactly once, first, and every other ErrHandler call, one per ServeHTTP on the way down, sees nil. A request ending in 404 or 405 hands only nil. |
| Chains.Use | http.go:141-147 | The loop of `use` builds exactly `m[0](m[1](…m[k-1](h)))`. |
| Chains.RunHandlesNoError | http.go:40-45 | A handler chain called by a route calls no ErrHandler itself, whatever its middleware. |
| Chains.RunNested | http.go:71-73 | Running nested middleware is the onion: markers are entered in order and left in reverse, the first guard answers, and the inner error comes out unchanged. |
| Chains.NestedAppend | http.go:150-152 | Wrapping in two lists one after the other is wrapping in their concatenation, so two calls of Use act as one. |
| Chains.NodeChainError | http.go:154-159 | Around the `toFunc` adapter, the chain's error is nil unless a guard answered, and then it is that guard's error. |
| Chains.RouteChainHandlesNoError | http.go:40-45 | A route's own chain never calls an ErrHandler. That is left to HandleFunc's closure. |
| Chains.NestedRouteChain | http.go:141-147 | Wrapping a route handler with `use` keeps it a route chain. |
| MuxExamples.HandlerMiddleware | http_test.go:75-136 | Five node markers registered by four calls of Use are entered 1..5 and left 5..1 around the route. The buffer reads "12345" + "-5-4-3-2-1", and the ErrHandler is called twice with nil. |
| MuxExamples.FiveMarkerMux | http_test.go:79-126 | Registering the markers gives `mws` of exactly the five markers in order, and the table holds only "GET /". |
| MuxExamples.FiveRegistered | http.go:150-152 | The four calls of Use accumulate the five markers in order. |
| MuxExamples.ServeAlone | http.go:57-63 | On a master without groups, mounting registers nothing, and the trace is what the unchanged table specifies. |
| MuxExamples.MarkersServed | http.go:71-76 | The test's mux yields the markers' Enter events, the route, and the Exit events in reverse. |
| MuxExamples.RenderMarkers | http_test.go:79-118 | What the five markers write across the whole trace is "12345" + "-5-4-3-2-1". |
| MuxExamples.RenderFive | http_test.go:79-118 | The markers write "12345" on the way in and "-5-4-3-2-1" on the way out. The handler and the ErrHandler write nothing. |
| MuxExamples.MarkDigit | http_test.go:81-83 | A marker writes its digit on the way in, and '-' followed by its digit on the way out. |
| MuxExamples.RouteMiddleware | http_test.go:138-169 | The route markers wrap only the handler. The buffer reads "12" + "-2-1". |
| MuxExamples.TwoMarkersServed | http.go:95-97 | The route's markers run inside the route's closure, before its ErrHandler call. |
| MuxExamples.RenderTwoMarkers | http_test.go:138-169 | That trace writes "12" + "-2-1". |
| MuxExamples.ErrorHandler | http_test.go:171-185 | The route's error reaches the default ErrHandler once. ServeHTTP then calls the ErrHandler with nil. |
| MuxExamples.PutAsWritten | http.go:110-113 | A route registered by Put answers a PUT request with 405. |
| MuxExamples.PutServed | http.go:110-113 | A route registered by the corrected Put serves a PUT request. |
| MuxExamples.Group | http_test.go:187-205 | GET /v1/auth/user reaches the route "/user" on the group "/auth/" of the group "/v1/". Each of the three ServeHTTP calls then calls the ErrHandler with nil. |
| MuxExamples.GroupTree | http_test.go:188-197 | The test's tree: a master, "/v1/" below it, "/auth/" below that, and the route on the last. |
| MuxExamples.NestedGroups | http.go:80-92 | Two nested calls of Group give three distinct nodes. The groups form a chain, and every child has the default ErrHandler copied from its parent. |
| MuxExamples.ServeGroupTree | http.go:48-63 | The first request mounts "/v1/" on the master and "/auth/" on "/v1/". The route table is kept. |
| MuxExamples.GroupSub | http.go:80-92 | The master's subtree is exactly the three nodes. |
| MuxExamples.OneChild | http.go:80-92 | A node with one group is itself plus that group's subtree. |
| MuxExamples.LoneNode | http.go:48-54 | A node without groups is its own whole subtree, and mounting leaves its table as it was. |
| MuxExamples.GroupTablesMounted | http.go:48-54 | After mounting, the master and "/v1/" each hold exactly one subtree pattern, and the route is unchanged. |
| MuxExamples.GroupServed | http.go:51-52 | Each mount strips its prefix up to the trailing '/', so the route sees "/user". |
| MuxExamples.GroupPaths | http.go:51-52 | "/v1/" strips "/v1/auth/user" to "/auth/user", and "/auth/" strips that to "/user". |
| MuxExamples.BareMountServed | http.go:49-52 | Below a parent without middleware, a group's trace is the child's trace followed by the parent's ErrHandler with nil. |
| MuxExamples.UserServed | http.go:40-45 | The route on "/auth/" runs once and hands its nil error to the ErrHandler. |
| MuxExamples.LateGroup | http.go:59-63 | A group created after the first request is never mounted, so a request for its route is answered 404. |
| MuxExamples.LateGroupMux | http.go:59-63 | After the first request, the master stays mounted with an empty table while a group and a route are added below it. |
| MuxExamples.ServeMounted | http.go:59-63 | Once the once-flag is set, serving changes no table. |
| MuxExamples.LateServed | http.go:67-69 | An empty table with no middleware yields a 404 followed by the ErrHandler called with nil. |
| Errors.HTTPError.constructor | error.go:36-41 | NewHTTPError sets the code and message, and the internal error is nil. |
| Errors.HTTPError.SetInternal | error.go:44-47 | The internal error of this very object is set to the argument, or cleared when it is nil, and the same object is returned. |
| Errors.HTTPError.Unwrap | error.go:58-60 | Unwrap yields the internal error, and that is exactly what Error() appends after the code and the message; without one, Error() is the plain text. |
| Errors.HTTPError.Error | error.go:50-55 | The status code can be read back from every Error() text. |
| Errors.FormatCodeRoundTrip | error.go:50-55 | Whatever the message holds, the code is recoverable from the text. |
| Errors.FormatStartsWith | error.go:50-55 | The text starts with "code=<decimal code>, message=<msg>". |
| Errors.FormatInternalExtends | error.go:51-54 | With an internal error, the text is the plain text followed by ", internal=<its text>". |
| Errors.Format404 | error.go:50-55 | For code 404 the text is "code=404, message=" + msg + the internal suffix. |
| Errors.FormatNotFound | error_test.go:25-27 | Error() gives "code=404, message=not found" without an internal error. |
| Errors.FormatNotFoundInternal | error_test.go:29-31 | Error() gives "…, internal=internal error" once the internal error is set. |
| Errors.Helper | error.go:63-65 | `helper` returns the code and its reason phrase. |
| Errors.PredefinedAreErrors | error.go:69-108 | There are forty predefined codes, each a 4xx or 5xx code. |
| Errors.NewPredefined | error.go:68-108 | The predefined table has exactly the forty codes. Each entry is a new object with its reason phrase as message and no internal error, and no two codes share an object. |
| Errors.NewErrors | error.go:69-108 | The loop creates one new HTTPError per code, with StatusText as message and no internal error; the objects are pairwise distinct. |
| Errors.DefaultErrHandlerFunc | error.go:19-26 | An HTTPError yields Content-Type application/json, its status (unless one was already committed) and the body `{"msg": Msg}`. Any other error leaves the writer untouched. |
| Errors.ClearInternal | error.go:44-60 | SetInternal(nil) clears the internal error: Unwrap yields nil again and Error() is the plain text. |
| Errors.UnwrapAfterSetInternal | error_test.go:34-38 | Unwrap yields nil before SetInternal and the internal error after it, and SetInternal returns the receiver. |
| Errors.SharedPredefined | error.go:73 | SetInternal through an alias of the predefined ErrNotFound changes the shared global's Error() text, while another predefined error (ErrBadRequest) keeps no internal error. |
| Errors.DefaultHandlerOnRecorder | error_test.go:40-47 | On a fresh recorder, an HTTPError with code 400 and message "bad" gives status 400 and the body `{"msg":"bad"}` with the encoder's newline. |
| Json.UnescapeEscape | error.go:22 | Reading back the escaped message gives the message, for every string. |
| Json.DecodeEncodeMsgMap | error.go:22 | A client reading the error body `{"msg": …}` recovers the message exactly. |
| Json.EscapeIsHtmlSafe | error.go:22 | The encoded message never contains '<', '>' or '&'. |
| Json.EncodeMsgMap | error.go:22 | The body the default ErrHandler writes never contains '<', '>' or '&', whatever the message holds. |
| Json.EncodeBad | http_test.go:184 | The message "bad" is encoded as `{"msg":"bad"}` and a newline. |
| Text.NatDigitsCorrect | error.go:52 | `%d` writes a non-empty run of digits, with no leading zero, that denotes the number. |
| Text.DecimalRoundTrip | error.go:52 | The decimal text identifies the number. |
| Text.EqualFoldIsLowerEquality | middleware/page_route.go:17 | EqualFold holds exactly when the lower-case forms are equal. |
| Text.TrimSpaceIsSlice | middleware/content_encoding.go:17 | TrimSpace keeps a contiguous slice of its input that neither starts nor ends with white space. |
| Text.TrimSpaceOfTrimmed | middleware/content_encoding.go:17 | A string without white space at either end is unchanged by TrimSpace. |
| Text.IndexFromLeftmost | middleware/path_rewrite.go:16 | Index finds an occurrence exactly when there is one, and finds the leftmost one. |
| Capability.FirstCapableServes | rw.go:37-47 | The search answers layer i exactly when it reaches i and layer i offers the capability. Reaching i means every earlier layer lacks the capability and unwraps. |
| Capability.FirstCapableNone | rw.go:53-62 | The search fails exactly when every layer it reaches lacks the capability. |
| Capability.Search | rw.go:37-47 | The walk down the Unwrap chain returns the first capable layer of its specification. |
| Capability.HijackWalk | rw.go:51-63 | The first reached Hijacker serves the call. Otherwise the fixed error is returned, and no reached layer is a Hijacker. |
| Capability.PushWalk | rw.go:66-79 | The first reached Pusher serves the call with the target. Otherwise the fixed error is returned, and no reached layer is a Pusher. |
| Capability.FlushedBy | rw.go:34-48 | At most one layer flushes: the first reached Flusher, or none exactly when no reached layer is a Flusher. |
| NetHttp.Sink.WriteHeader | rw.go:26 | The wrapped writer, with the rules of the test recorder, commits the first status and ignores later ones. |
| NetHttp.Sink.Write | helper_writer.go:94 | A Write appends the data, committing 200 if nothing was committed before. |
| NetHttp.Sink.SetHeader | helper_writer.go:92 | The field gets exactly this one value. |
| NetHttp.Sink.AddHeader | middleware/sunset.go:23 | The value is appended to the field's values. |
| NetHttp.Sink.FlushLayer | rw.go:40 | The Flush of that layer is recorded. |
| Rw.ResponseWriter.constructor | http.go:65 | The wrapper starts uncommitted, with status 0 and an empty history. |
| Rw.ResponseWriter.WriteHeader | rw.go:22-27 | The wrapper records the code as the last one and as committed, then forwards it. The wrapped writer keeps its first code. |
| Rw.ResponseWriter.StatusCode | rw.go:29-31 | The result is the last code passed to WriteHeader, or 0 exactly when WriteHeader was never called. |
| Rw.ResponseWriter.Write | rw.go:14-19 | The promoted Write appends the body and leaves the recorded fields unchanged. |
| Rw.ResponseWriter.WriteCommitting | rw.go:14-19 | The corrected Write records 200 when it commits the response. |
| Rw.ResponseWriter.Flush | rw.go:34-48 | Exactly the layers FlushedBy names are flushed. |
| Rw.ResponseWriter.Hijack | rw.go:51-63 | Hijack is the capability walk for Hijacker, starting at the wrapped writer. |
| Rw.ResponseWriter.Push | rw.go:66-79 | Push is the capability walk for Pusher, with the target. |
| Rw.ResponseWriter.JSON | rw.go:93-97 | Content-Type is application/json, the status is committed and recorded, and then the encoded bytes are written. |
| Rw.ResponseWriter.String | rw.go:100-105 | Content-Type is text/plain; charset=UTF-8, the status is committed and recorded, and the body is exactly the string. |
| Rw.ResponseWriter.HTML | rw.go:108-113 | Content-Type is text/html; charset=UTF-8, the status is committed and recorded, and the body is exactly the HTML. |
| Rw.ResponseWriter.XML | rw.go:116-128 | Content-Type is application/xml; charset=UTF-8, the status is committed, and the body is the declaration followed by the encoding. It is indented only for a non-empty indent. |
| Rw.NewThenUnwrap | rw.go:86-88 | Unwrap on the wrapper ServeHTTP builds hands back exactly the writer it was given. |
| Rw.BodyOnlyStatus | rw.go:29-31 | A handler that only writes a body sends 200, while StatusCode() reports 0. |
| Rw.BodyOnlyStatusCommitting | rw.go:29-31 | With the corrected Write, the recorded status is the one that was sent. |
| Rw.SecondWriteHeader | rw.go:22-27 | A second WriteHeader is recorded by the wrapper, although the wrapped writer keeps the first status. |
| HelperWriter.HelperResponseWriter.constructor | helper_writer.go:18-22 | NewHelperRW keeps the writer it is given. |
| HelperWriter.HelperResponseWriter.WriteHeader | helper_writer.go:14-16 | The call passes straight to the wrapped writer. |
| HelperWriter.HelperResponseWriter.Write | helper_writer.go:14-16 | The call passes straight to the wrapped writer. |
| HelperWriter.HelperResponseWriter.Flush | helper_writer.go:25-39 | Exactly the layers FlushedBy names are flushed, and nothing happens when no reached layer is a Flusher. |
| HelperWriter.HelperResponseWriter.Hijack | helper_writer.go:42-54 | Hijack is the capability walk for Hijacker. |
| HelperWriter.HelperResponseWriter.Push | helper_writer.go:57-70 | Push is the capability walk for Pusher. |
| HelperWriter.HelperResponseWriter.JSON | helper_writer.go:84-88 | Content-Type application/json and the status are set before any body bytes. |
| HelperWriter.HelperResponseWriter.String | helper_writer.go:91-96 | Content-Type is text/plain; charset=UTF-8, the status is committed, and the body is exactly the string. |
| HelperWriter.HelperResponseWriter.HTML | helper_writer.go:99-104 | Content-Type is text/html; charset=UTF-8, the status is committed, and the body is exactly the HTML. |
| HelperWriter.HelperResponseWriter.XML | helper_writer.go:107-119 | The body is the XML declaration and a newline, then the element. It is indented only for a non-empty indent. |
| HelperWriter.NewThenUnwrap | helper_writer.go:77-79 | Unwrap hands back the writer NewHelperRW was given. |
| HelperWriter.StringOnRecorder | helper_writer_test.go:26-38 | On a fresh recorder the result is 200, text/plain and exactly the string. |
| HelperWriter.XmlOnRecorder | helper_writer_test.go:59-75 | The body opens with the XML declaration and a newline, then the element indented by two spaces. |
| ContentEncoding.AllowedSet | middleware/content_encoding.go:15-18 | The whitelist holds exactly the normalised arguments: lower-cased, then trimmed. |
| ContentEncoding.Serve | middleware/content_encoding.go:20-35 | `next` is called exactly when the request is accepted. Otherwise 415 is written, unless a status was already committed. When `next` is called, the writer is untouched. |
| ContentEncoding.FirstRejected | middleware/content_encoding.go:28-33 | The 415 is written at the first value not on the list, and no such value exists exactly when all values are listed. |
| ContentEncoding.RefusedIffOffList | middleware/content_encoding.go:28-34 | A request with a body is refused exactly when some Content-Encoding value is off the list. |
| ContentEncoding.NormalizeIdempotent | middleware/content_encoding.go:17 | Normalising twice gives the same result as normalising once. |
| ContentEncoding.ListedAccepted | middleware/content_encoding.go:29 | Every argument is accepted, in any letter case and with surrounding white space. |
| ContentEncoding.CommaListNotSplit | middleware/content_encoding.go:29 | "gzip, br" is refused although gzip and br are both allowed. |
| PageRoute.Route | middleware/page_route.go:16-22 | The page handler serves exactly when the method is GET and the paths agree up to case. Otherwise `next` serves, so exactly one of the two runs. |
| PageRoute.PathCaseIgnored | middleware/page_route.go:17 | The configured path in any letter case is served by the page handler. |
| PageRoute.OnlyGetServed | middleware/page_route.go:17 | Every method other than "GET", including "HEAD" and "get", goes to `next`. |
| PathRewrite.ReplaceFirst | middleware/path_rewrite.go:16 | The length changes by the difference of the two strings exactly when `old` occurs. |
| PathRewrite.AbsentUnchanged | middleware/path_rewrite.go:16 | A path in which `old` does not occur is left as it is. |
| PathRewrite.LeftmostReplaced | middleware/path_rewrite.go:16 | Only the leftmost occurrence is replaced, and the text before and after it is kept. This also covers `old == new`. |
| PathRewrite.PrefixReplaced | middleware/path_rewrite.go:16 | A path starting with `old` has that prefix replaced. An empty `old` puts `new` in front. |
| PathRewrite.OnlyFirstOccurrence | middleware/path_rewrite.go:16 | "/a/a" with "/a" replaced by "/b" gives "/b/a". |
| PathRewrite.Serve | middleware/path_rewrite.go:15-18 | Only the request's path changes, and it becomes the replaced path. |
| Sunset.Serve | middleware/sunset.go:17-27 | The response header becomes `SunsetHeaders` of the old header. |
| Sunset.AddAll | middleware/sunset.go:22-24 | After adding values under a key, the header holds the same fields plus that key when a value was added. |
| Sunset.SunsetHeaders | middleware/sunset.go:17-27 | The zero time leaves the header as it was. Otherwise the fields afterwards are the old ones plus Sunset and Deprecation, and Link when there are links. |
| Sunset.HttpDate | middleware/sunset.go:19 | The HTTP-date opens with the weekday's name of the wall clock and a comma, and ends with " GMT" whatever the location. |
| Sunset.LayoutEnds | middleware/sunset.go:19 | The layout opens with the weekday's name and a comma, and ends with " GMT", whatever the fields. |
| Sunset.AddLinks | middleware/sunset.go:22-24 | One Header.Add per link, in order. |
| Sunset.AddAllAppends | middleware/sunset.go:22-24 | The links are appended after the existing Link values, in order. |
| Sunset.AddAllKeepsOthers | middleware/sunset.go:22-24 | Adding Link values leaves every other field as it was. |
| Sunset.HeadersSet | middleware/sunset.go:18-24 | With a non-zero time, Sunset and Deprecation each hold exactly the same HTTP-date. Link gains the links after its old values, and every other field is unchanged. |
| Sunset.ZeroTimeNoHeaders | middleware/sunset.go:18 | The zero time, in any location, leaves the header exactly as it was. |
| Calendar.DateOfDay | middleware/sunset.go:19 | The date of a day count is a valid Gregorian date (month 0..11, day within the month's length, leap years included) whose own day count is the input. |
| Calendar.CivilRoundTrip | middleware/sunset.go:19 | Every valid date comes back unchanged from its day count, so DateOfDay and DaysFromCivil are inverse bijections. |
| Calendar.CivilInjective | middleware/sunset.go:19 | Two valid dates with the same day count are the same date. |
| Calendar.NextDayCount | middleware/sunset.go:19 | The calendar's next day of a valid date is valid and one day further on, across month ends, February 29 and year ends. |
| Calendar.DayAfter | middleware/sunset.go:19 | Counting on by one day moves the date to the calendar's next day. |
| Calendar.Epoch | middleware/sunset.go:19 | Day 0 is 1 January 1970. |
| Calendar.TimeOfDay | middleware/sunset.go:19 | Hours, minutes and seconds are in range and add up to the second of the day. |
| Sunset.CivilOf | middleware/sunset.go:19 | The date is valid and has the given day count, the weekday counts on from Thursday 1970-01-01, and the time of day adds up to the given second. |
| Sunset.Clock | middleware/sunset.go:19 | The wall clock is a valid date, with the weekday of that date, and a time of day in range. Day count times 86400 plus the time of day is exactly the wall-clock second of the instant in its location. |
| Sunset.ClockSplit | middleware/sunset.go:19 | Any split of the wall-clock second into days and a second of the day gives the clock's day count, time of day and weekday. |
| Sunset.ExampleDays | middleware/sunset.go:19 | 6 Nov 1994 is a valid date and day 9075 after the epoch. |
| Sunset.ExampleClockUTC | middleware/sunset.go:19 | 784111777 in UTC is Sunday 08:49:37. |
| Sunset.ExampleClockPlusOne | middleware/sunset.go:19 | The same instant one hour east of UTC reads 09:49:37. |
| Sunset.ExampleLayout | middleware/sunset.go:19 | The fields of the example date fill the layout "Mon, 02 Jan 2006 15:04:05 GMT". |
| Sunset.ExampleHttpDate | middleware/sunset.go:19 | The UTC instant is written "Sun, 06 Nov 1994 08:49:37 GMT", the example of section 5.6.7 of RFC 9110. |
| Sunset.ExampleHttpDatePlusOne | middleware/sunset.go:19 | The same instant from UTC+1 is written "Sun, 06 Nov 1994 09:49:37 GMT". |
| Sunset.NonUTCSunsetMisdated | middleware/sunset.go:19-20 | As written, one instant gives two different Sunset headers depending on its location. |
| Sunset.SunsetHeadersUTC | middleware/sunset.go:19-20 | Converting to UTC first agrees with the source for UTC times. |
| Sunset.UTCHeadersFollowInstant | middleware/sunset.go:19-20 | After the conversion, the headers depend only on the instant. |
| Sunset.UTCSunsetDated | middleware/sunset.go:19-20 | After the conversion, the example instant from UTC+1 is announced as 08:49:37 GMT. |

## Left out

- The pattern matching of `http.ServeMux` and the internals of `http.StripPrefix` are library code that is not part of this model. The lookup is modelled only for what the core relies on:
  - an exact "<METHOD> <path>" pattern;
  - a GET pattern also serving HEAD;
  - a method-less pattern;
  - the longest '/'-terminated subtree pattern;
  - 405 when a pattern for another method, standard or not, matches the path or a subtree of it.

  Wildcards, host patterns, path cleaning and redirects are not modelled.
- Mux.ServeMux.Handle binds the pattern even when the table already holds it or a pattern that conflicts with it. `http.ServeMux.Handle` panics on a duplicate pattern and, since Go 1.22, on two patterns that conflict, such as "GET /" and "/api/". Registration panics are setup errors outside the serving behaviour modelled here.
- Mux.ServeMux.AddToMux inherits this. A group prefix that is already a pattern of the parent's table, or that conflicts with one, makes `net/http` panic while mounting; the model overwrites the entry instead.
- `sync.Once` is modelled as a boolean flag that flips once. Concurrent first requests are not modelled.
- ErrHandlers are identified by numbers, and the trace records each call with its error. `http.go` refers to a `DefaultErrHandler` that is not part of this model. The `DefaultErrHandlerFunc` of `error.go` is modelled on its own.
- Errors.DefaultErrHandlerFunc: the log line written for an error that is not an HTTPError is not modelled (`slog` is I/O). A nil error, which would panic, is excluded by the type. An HTTPError whose code is outside 100..999, on which `WriteHeader` panics, is excluded by precondition.
- NetHttp.Sink.WriteHeader follows `httptest.ResponseRecorder`: every first code commits. A server's writer sends 100, 102 and 103 as informational responses without committing, and that is not modelled. The same holds for Rw.ResponseWriter.WriteHeader and Rw.SecondWriteHeader, whose "the wrapped writer keeps the first status" is the recorder's behaviour. The panic of `WriteHeader` for a code outside 100..999 is excluded by the `ValidStatus` precondition on every WriteHeader path.
- The `encoding/json` and `encoding/xml` encoders are left out. `JSON` takes the encoded bytes, and `XML` takes the encoder as a function of its indentation setting. Only the one JSON document the core builds itself, `{"msg": …}`, is modelled. Strings are sequences of Unicode scalar values, so the encoder's replacement of invalid UTF-8 by `\ufffd` has nothing to act on and is not modelled.
- HTTPError.Internal is modelled as the text of an `errors.New` value, so any error wrapped there is identified by its text.
- The `net.Conn` and buffered reader that Hijack returns, and the effect of Push, are not modelled. The model states which layer serves the call, or the error.
- Middleware is modelled as identifiers: markers that write to the tests' buffer and guards that answer without calling `next`. Arbitrary Go closures are not modelled.
- PathRewrite.Serve, Sunset.Serve and ContentEncoding.Serve do not run `next`. They return, or end, where `next` would be called once. That `next` is called after the headers are set is therefore stated by the order of the Go code, not proved.
- ToLower, EqualFold and TrimSpace are modelled on ASCII letters and the white space of `unicode.IsSpace`. Unicode case folding is not modelled.
- PathRewrite.ReplaceFirst models `strings.Replace` for n = 1 only, which is the only count the middleware uses.
- A `time.Time` is modelled as an instant plus the UTC offset of its location. Monotonic clock readings and leap seconds are not modelled.
- The logger in `mws/logger.go`, `middleware/timeout.go` and `middleware/clean_path.go` are left out. Each is I/O, timers, or a wrapper over `path.Clean`, which is not part of this model.
- The test-only middlewares and the example programs are left out.

## Findings

| source | as written | input that shows it | evidently intended | confidence | as-written member | corrected member |
|---|---|---|---|---|---|---|
| http.go:110-113 | Put registers its route under `http.MethodGet` | Put("/item", h), then a PUT request for /item is answered 405, while GET /item is served | the route is registered under "PUT /item" | high, not executed | MuxExamples.PutAsWritten | MuxExamples.PutServed |
| rw.go:14-31 | the wrapper's StatusCode() only sees explicit WriteHeader calls; a body-only handler leaves it at 0 | a handler that only calls Write: the client gets 200, StatusCode() returns 0, and mws/logger.go logs the request at Error level | StatusCode() reports the status actually sent, 200 here | medium, not executed | Rw.BodyOnlyStatus | Rw.BodyOnlyStatusCommitting |
| middleware/sunset.go:19-20 | the time is formatted in its own location, but http.TimeFormat writes a literal "GMT" | 784111777 (Sun, 06 Nov 1994 08:49:37 UTC) held in a UTC+1 location is announced as "09:49:37 GMT" | format `sunsetAt.UTC()`, as http.TimeFormat requires | medium, not executed | Sunset.NonUTCSunsetMisdated | Sunset.UTCSunsetDated |
