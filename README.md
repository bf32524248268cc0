# jooby request and response adapters in Dafny

This project models two adapters of the jooby web framework. Each one wraps a servlet object in a small amount of decision logic.

- `RequestImpl` is the request facade that route handlers see. It resolves a named parameter from three sources: path variables, transport (query or form) parameters and multipart uploads. It also exposes headers and cookies, picks the body parser and delegates `accepts` to the media-type matcher.
- `JettyResponse` is the response adapter. On the text path it pushes content type, charset and status to the servlet response before any body is written; the binary path pushes only the content type. It writes through decorators that application code cannot close, and it closes the real writer or stream itself, only after the strategy has returned normally. `send` and `render` hand values to a body-writer strategy.

The servlet objects are plain in-memory state:
- The servlet request is the value `Request.ServletRequest`. `None` stands for a `null` that the servlet API returns. A parameter name missing from the value map stands for a `null` value array; a header name missing from the header map stands for an empty enumeration.
- The servlet response is the class `Response.ServletResponse`. Its `trace` records, in order, each framing call, each write and close that reaches the transport, and each call into a registered body writer.

Files:
- `Wrappers.dfy`: `Option` and `Result`.
- `Linked.dfy`: the insertion-ordered collections. A `LinkedHashSet` is `Dedup` (built by repeated `Add`). A `LinkedHashMap` is an association sequence with `Put`, `Keys` and `Lookup`.
- `Media.dfy`: media types, `name()`, and the `*/*`, `text/html` and `multipart/form-data` constants.
- `Request.dfy`: `RequestImpl`.
- `Response.dfy`: `JettyResponse`, `NotCloseableWriter`, `NotCloseableStream` and the servlet response.

Behaviour of the code worth noting:
- A second `send` on the same response does not fail. The code has no such guard.
- An upload needs a non-null submitted file name. A non-empty one is not required.
- The adapter closes the transport's real writer or stream itself, after the strategy returns normally. The decorators only stop application code from closing it.
- With the default body writer, `send` raises the 406 as an `HttpException` inside the text path. Content type, charset and status have already been pushed by then, and the writer is left open. `render` calls the body writer directly, so its 406 comes with no framing at all.

Assumptions about code that is not part of this model:
- `MediaType.name()` is `type/subtype`.
- `MediaType.multipart` is `multipart/form-data`.
- `getPart(name)` returns the first part with that name.
- `Cookie.Definition.toCookie()` keeps an unset comment, domain or path absent and carries the other attributes over unchanged.

## Model

| member | source | states |
|---|---|---|
| `Linked.DedupElements` | jooby/src/main/java/org/jooby/internal/RequestImpl.java:188-200 | The names collected in the LinkedHashSet have no duplicates, and a name is in it exactly when it was added. |
| `Linked.DedupFirstOccurrenceOrder` | jooby/src/main/java/org/jooby/internal/RequestImpl.java:188-200 | Each name sits at its first occurrence: the set's order is the order of first occurrences in the added sequence. |
| `Linked.DedupPrefix` | jooby/src/main/java/org/jooby/internal/RequestImpl.java:194-198 | Adding the transport names after the route names never moves the names already in the set. |
| `Linked.DedupOfDistinct` | jooby/src/main/java/org/jooby/internal/RequestImpl.java:190-193 | Distinct route variable names go into the set unchanged and in order. |
| `Linked.Put` | jooby/src/main/java/org/jooby/internal/RequestImpl.java:149-152 | LinkedHashMap.put appends a new key last, keeps the position of an existing key, stores the value and leaves every other key's value alone. |
| `Request.RequestImpl.ParamNames` | jooby/src/main/java/org/jooby/internal/RequestImpl.java:188-200 | The two loops leave exactly the LinkedHashSet of the route variable names followed by the transport parameter names. |
| `Request.ParamNamesShape` | jooby/src/main/java/org/jooby/internal/RequestImpl.java:188-200 | For a well-formed route: its variable names lead in their own order, every route or transport name appears exactly once, and the order is that of first occurrence. |
| `Request.RequestImpl.Params` | jooby/src/main/java/org/jooby/internal/RequestImpl.java:143-154 | No names gives the empty map. Otherwise the keys are exactly `paramNames` in order, and each maps to `param(name)`. |
| `Request.ReqParams` | jooby/src/main/java/org/jooby/internal/RequestImpl.java:319-325 | A null value array gives the empty list. Otherwise the result is the transport's values in transport order. |
| `Request.ParamValues` | jooby/src/main/java/org/jooby/internal/RequestImpl.java:311-317 | The path variable's value comes first when there is one. The transport values follow it, all of them, in order. |
| `Request.UploadsNamed` | jooby/src/main/java/org/jooby/internal/RequestImpl.java:300-308 | The result holds exactly the parts that have a non-null submitted file name and the requested field name, in part order, each as often as it occurs among the parts. Each carries the request charset and the work directory. |
| `Request.ReqUploads` | jooby/src/main/java/org/jooby/internal/RequestImpl.java:290-309 | Empty unless the content type's name starts with the multipart name and there are parts. Otherwise it holds exactly the matching upload parts, in part order, each as often as it occurs among the parts. |
| `Request.FirstPartNamed` | jooby/src/main/java/org/jooby/internal/RequestImpl.java:130 | `getPart(name)` gives the first part with that name, or nothing exactly when no part has that name. |
| `Request.ScalarType` | jooby/src/main/java/org/jooby/internal/RequestImpl.java:128-135 | The default is `*/*`. In a multipart request where a part named `name` exists, it is that part's content type, or `*/*` when the part has none. |
| `Request.ParamOf` | jooby/src/main/java/org/jooby/internal/RequestImpl.java:118-137 | The view holds uploads exactly when the scalar list is empty and `reqUploads(name)` is not, and then it holds those uploads. Otherwise it holds the scalar list with the per-part media type and the request charset. |
| `Request.ScalarWinsOverUploads` | jooby/src/main/java/org/jooby/internal/RequestImpl.java:119-127 | A name with a path variable or a non-empty transport value always resolves to its scalar values, never to uploads. |
| `Request.FileFieldResolvesToUploads` | jooby/src/main/java/org/jooby/internal/RequestImpl.java:119-127 | In a multipart request, a file field with no scalar value resolves to uploads, including every upload part with that name (one with a non-null submitted file name). |
| `Request.HeaderView` | jooby/src/main/java/org/jooby/internal/RequestImpl.java:202-206 | A header view holds every value of the header in transport order, typed `*/*`. |
| `Request.EnumToList` | jooby/src/main/java/org/jooby/internal/RequestImpl.java:327-333 | Draining the enumeration gives its elements, all of them, in order. |
| `Request.RequestImpl.Header` | jooby/src/main/java/org/jooby/internal/RequestImpl.java:202-206 | `header(name)` is the header view of the enumeration's values. |
| `Request.RequestImpl.Headers` | jooby/src/main/java/org/jooby/internal/RequestImpl.java:208-217 | The keys are the header names, each once, in first-seen order. Each maps to `header(name)`. |
| `Request.Body` | jooby/src/main/java/org/jooby/internal/RequestImpl.java:219-224 | The selector is asked with the one-element list `[contentType]`. No parser gives 415, and no body reader is built. Otherwise the parser is called with a reader over the request charset. |
| `Request.Accepts` | jooby/src/main/java/org/jooby/internal/RequestImpl.java:112-116 | The result is the matcher over the request's accept list applied to the candidate types. |
| `Request.ToCookie` | jooby/src/main/java/org/jooby/internal/RequestImpl.java:242-252 | Translating one cookie loses none of the eight attributes the code reads (name, value, comment, domain, path, httpOnly, maxAge, secure): mapping it back gives those attributes of the servlet cookie. Comment, domain and path stay absent when they were null. |
| `Request.TranslateCookies` | jooby/src/main/java/org/jooby/internal/RequestImpl.java:241-253 | The stream map keeps the number and order of cookies, and each one is translated with none of the eight attributes the code reads lost. |
| `Request.CookiesOf` | jooby/src/main/java/org/jooby/internal/RequestImpl.java:236-254 | Null servlet cookies give the empty list. Otherwise every cookie is translated, in order, with none of the eight attributes the code reads lost. |
| `Request.FirstNamed` | jooby/src/main/java/org/jooby/internal/RequestImpl.java:228 | The result is the index of a cookie with that name, with no earlier cookie of that name, or nothing exactly when no cookie has that name. |
| `Request.CookieNamed` | jooby/src/main/java/org/jooby/internal/RequestImpl.java:226-229 | `cookie(name)` is the first cookie with an equal name, and it is absent exactly when no cookie has that name. |
| `Request.RequestImpl.constructor` | jooby/src/main/java/org/jooby/internal/RequestImpl.java:78-95 | The facade holds the given transport, route, content type, accept list, charset, locale and work directory. |
| `Request.RequestImpl.SetRoute` | jooby/src/main/java/org/jooby/internal/RequestImpl.java:281-283 | `route(Route)` rebinds the route and changes nothing else. |
| `Response.WriterOpsOnlyWrite` | jooby-jetty/src/main/java/jooby/JettyResponse.java:242-282 | Whatever a strategy calls on a `NotCloseableWriter`, the transport sees only character writes, never a flush or a close. |
| `Response.StreamOpsOnlyWrite` | jooby-jetty/src/main/java/jooby/JettyResponse.java:218-240 | Whatever a strategy calls on a `NotCloseableStream`, the transport sees only byte writes, never a flush or a close. |
| `Response.NotCloseableWriter.Apply` | jooby-jetty/src/main/java/jooby/JettyResponse.java:242-282 | Each writer call forwards its characters to the transport writer, with `write(int)` keeping the low 16 bits. Range writes fail when out of bounds. |
| `Response.NotCloseableWriter.WriteStringRange` | jooby-jetty/src/main/java/jooby/JettyResponse.java:265-268 | `write(String, off, len)` goes through `Writer`'s own implementation. It fails when the range is out of bounds. Otherwise it forwards exactly `str[off..off+len]`. |
| `Response.NotCloseableWriter.Flush` | jooby-jetty/src/main/java/jooby/JettyResponse.java:275-277 | `flush` leaves the transport untouched. |
| `Response.NotCloseableWriter.Close` | jooby-jetty/src/main/java/jooby/JettyResponse.java:279-281 | `close` leaves the transport untouched. |
| `Response.NotCloseableStream.Apply` | jooby-jetty/src/main/java/jooby/JettyResponse.java:218-240 | The three writes are forwarded, with `write(int)` keeping the low 8 bits. Flush and close are `OutputStream`'s defaults and do nothing. |
| `Response.RunWriterOps` | jooby-jetty/src/main/java/jooby/JettyResponse.java:380-381 | A strategy's calls on the writer decorator run in order up to the first failure, and the transport sees exactly their effects. |
| `Response.RunStreamOps` | jooby-jetty/src/main/java/jooby/JettyResponse.java:333-334 | A strategy's calls on the stream decorator run in order up to the first failure, and the transport sees exactly their effects. |
| `Response.TextStrategyOnlyWrites` | jooby-jetty/src/main/java/jooby/JettyResponse.java:347-353 | The adapter's own steps for a text strategy, including the one `send` builds, only write or call the body writer. They never frame or close. |
| `Response.TextPathOrder` | jooby-jetty/src/main/java/jooby/JettyResponse.java:372-387 | The text path sets content type `type/subtype`, then the charset, then the status, before anything else, and the adapter's own steps frame nothing after. The adapter closes the real writer exactly once, as the last step, exactly when the strategy returned normally. |
| `Response.BytesPathOrder` | jooby-jetty/src/main/java/jooby/JettyResponse.java:327-338 | The binary path sets only the content type and never the charset or status. It closes the real stream exactly once, last, exactly when the strategy succeeded. |
| `Response.SendCharSequenceWritesVerbatim` | jooby-jetty/src/main/java/jooby/JettyResponse.java:345-354 | A `CharSequence` body is written verbatim between framing and close, and the body writer is never called. |
| `Response.DefaultWriterSendFails` | jooby-jetty/src/main/java/jooby/JettyResponse.java:395-411 | With the default writer, any other body fails with 406 carrying the construction-time `type/subType`. The writer is then left unclosed. |
| `Response.RegisteredWriterSendFailure` | jooby-jetty/src/main/java/jooby/JettyResponse.java:345-354 | When a registered body writer fails, `send` has framed the response and called the writer, the failure propagates, and the real writer is left unclosed. |
| `Response.JettyResponse.constructor` | jooby-jetty/src/main/java/jooby/JettyResponse.java:294-303 | A null media type becomes `text/html`. A null writer becomes the not-acceptable writer for that media type. The status is read from the transport. |
| `Response.JettyResponse.SetStatus` | jooby-jetty/src/main/java/jooby/JettyResponse.java:310-314 | `status(s)` changes only the adapter's status field, not the transport. |
| `Response.JettyResponse.SetType` | jooby-jetty/src/main/java/jooby/JettyResponse.java:316-320 | `type(t)` changes only the adapter's media type field, not the transport. |
| `Response.JettyResponse.Status` | jooby-jetty/src/main/java/jooby/JettyResponse.java:322-325 | `status()` reports the transport's status, not the adapter's field. |
| `Response.JettyResponse.Bytes` | jooby-jetty/src/main/java/jooby/JettyResponse.java:327-338 | The trace grows by exactly the binary-path trace. The content type is set, and the status, charset and headers stay as they were. |
| `Response.JettyResponse.CallBodyWriter` | jooby-jetty/src/main/java/jooby/JettyResponse.java:395-411 | The default writer fails with 406 and `type/subType`, with no effect on the transport. A registered writer is handed the value, and its failure, if any, propagates. |
| `Response.JettyResponse.Text` | jooby-jetty/src/main/java/jooby/JettyResponse.java:372-387 | The trace grows by exactly the text-path trace. Afterwards the transport holds the given status, the `type/subtype` content type and the charset. |
| `Response.JettyResponse.RunTextStrategy` | jooby-jetty/src/main/java/jooby/JettyResponse.java:379-381 | The strategy gets a close-ignoring adapter over the writer; the trace grows by exactly the strategy's events and its failure is passed on. |
| `Response.JettyResponse.Send` | jooby-jetty/src/main/java/jooby/JettyResponse.java:340-343 | `send(body)` is `send(status, body)` with the adapter's current status field. The transport then holds that status, the media type's `type/subtype` and the charset, and its headers are kept. |
| `Response.JettyResponse.SendWithStatus` | jooby-jetty/src/main/java/jooby/JettyResponse.java:345-354 | The text path runs with the current media type. A `CharSequence` is written as is, and any other body, null included, goes to the body writer. The transport then holds the given status, the media type's `type/subtype` and the charset, and its headers are kept. |
| `Response.JettyResponse.SendStrategy` | jooby-jetty/src/main/java/jooby/JettyResponse.java:361-364 | The text path runs with the adapter's status and media type, and the transport then holds that status, `type/subtype` and the charset, with its headers kept. |
| `Response.JettyResponse.SendStrategyWithStatus` | jooby-jetty/src/main/java/jooby/JettyResponse.java:356-359 | The text path runs with the given status and the adapter's media type, and the transport then holds that status, `type/subtype` and the charset, with its headers kept. |
| `Response.JettyResponse.Render` | jooby-jetty/src/main/java/jooby/JettyResponse.java:366-370 | `render` always hands `View(viewName, model)` to the body writer. It never writes text directly, and it sets no framing and closes nothing. |
| `Response.JettyResponse.Header` | jooby-jetty/src/main/java/jooby/JettyResponse.java:389-393 | `header(name, value)` sets that header on the transport and leaves its status, content type and charset as they were. |

## Left out

- `JettyResponse.Text`, `JettyResponse.Send`, `JettyResponse.SendWithStatus`, `JettyResponse.SendStrategy`, `JettyResponse.SendStrategyWithStatus` and `JettyResponse.Header`:
  - The servlet response's committed and writing state is not modelled. Framing calls made after commit or after `getWriter` are still applied, and writes after a close are still recorded.
  - A `Content-Type` set through `setHeader` stays a plain header.
  - Their field `ensures` therefore describe the calls the adapter makes. A client sees those values only on the first send.
- `Request.HeaderValues`: the case-insensitive header-name lookup of `getHeaders` is not modelled. The header map is keyed by the exact name, so `header(name)` and `HeaderView` see only values stored under that exact spelling.
- Session access (`session`, `ifSession`) is left out: it only casts the servlet session.
- Pass-through getters are left out: `ip`, `hostname`, `protocol`, `secure`, `length`, `locale`, `charset`, `path`, `type`, `accept`, `route`, `toString`, `getInstance` and `committed`. None of them holds any logic.
- The injector and configuration lookup of `application.tmpdir` is left out. The directory is a field (`workDir`) given at construction.
- `MutantImpl` and `UploadMutant` value coercion, `PartUpload`, `BodyReaderImpl` and parsing are left out. A view records only the values or uploads it holds.
- The body converter selector and `MediaType.matcher(...).first(...)` are left out. They are passed in as functions; only the delegation and the 415 mapping are modelled.
- `MediaType.valueOf` parsing of a part's content type is left out. A part carries an already parsed media type.
- Charset encoding and `HttpStatus.valueOf` are left out. A charset is its name and a status is an integer, so an unknown status code is not rejected.
- `requireNonNull` checks are left out. Dafny values cannot be null, so the `NullPointerException` paths are not modelled.
- Checked exceptions from `getParts`, `getWriter` and `getOutputStream` are left out, and so is the servlet rule that a response has only one of writer and stream.
- An `IOException` from a write on the real writer or stream, or from the adapter's own `writer.close()` or `stream.close()`, is left out: the transport's writes and closes always succeed in the model.
- The servlet cookie's `version` is not modelled: `cookies()` never reads it, so it never reaches the jooby cookie.
- What a registered body writer writes is left out. Its call is one trace event, and it either returns normally or fails with a given failure.
- A body writer calling back into the response it is handed (`send` or `bytes` on the same adapter, which frame and close again) is not modelled. The ordering lemmas cover only the adapter's own steps.
- Text strategies are modelled as a list of calls on the writer, followed by an optional failure. Arbitrary code interleaving computation with writes is not modelled beyond that.
- Range writes fail with `IndexOutOfBounds` following the `java.io.Writer` and `OutputStream` contracts. The Jetty writer's own handling is not part of this model.
- Concurrency is left out: the adapters serve one request at a time.
