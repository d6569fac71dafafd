# AsyncHttpClient: a Dafny model of its protocol-unification core

AsyncHttpClient is a thin HTTP client on Netty. It speaks HTTP/1.1 or HTTP/2
behind one request/response API. This project models the decisions the
client makes itself, with Netty reduced to small stand-ins:

- **Construction** (`Client.AsyncHttpClient.Open`). HTTP/2 without TLS is
  refused before any connect. Otherwise the client makes exactly one connect
  to (host, port), and the new channel gets its handler pipeline.
- **Pipeline** (`Client.InitChannel`, `Client.PipelineStages`). The TLS
  handler is added first when TLS is on. It offers one ALPN protocol
  (RFC 7301 section 3): `h2` for HTTP/2 (section 3.3 of RFC 7540), otherwise
  `http/1.1`. HTTP/1.1 then gets a codec, a 10 MiB aggregator and an optional
  decompressor. HTTP/2 gets one connection handler. Its frame listener is the
  10 MiB adapter, wrapped in a decompressing listener when decompression is on.
- **Dispatch** (`Client.AsyncHttpClient.Run`, `Client.NewRequest`). The
  request line is always HTTP/1.1. The client adds Host, Content-Length and
  the `x-http2-scheme` marker, in that order. The caller's entries follow in
  iteration order, added rather than set. The response handler goes last in
  the pipeline and the request is written. Only HTTP/2 consumes a stream
  identifier.
- **Stream identifiers** (`Client.AsyncHttpClient.GetNextStreamId`). The
  counter starts at 3 and each allocation hands out the old value and adds 2.
  This gives the odd, increasing client identifiers of section 5.1.1 of
  RFC 7540.
- **HTTP/2 frame adapter** (`Http2Adapter.DetailedInboundHttp2ToHttpAdapter`).
  The superclass call comes first. After a HEADERS frame (section 6.2 of
  RFC 7540) the adapter passes on a response start and the converted headers,
  then flushes. After a DATA frame (section 6.1) it passes on one content
  object, marked last exactly when the frame ends the stream, then flushes.
  It returns the superclass's processed-byte count. When the superclass
  throws, the adapter passes nothing on.

The superclass `InboundHttp2ToHttpAdapter` and `HttpConversionUtil.toHttpResponse`
are function values given to the adapter. Either may throw (a `Result`). The
superclass's own state has an unknown type `S`, and what it passes down the
pipeline is a sequence of whole response messages. A whole message is read
as its Netty types make it: a response start, a last content object and its
whole body. So at a stream end the next handler sees the body twice, once in
the adapter's content objects and once in the superclass's whole message. A Netty channel is a
`Channel` that records its handlers and the requests written to it. The
network is a `Network` that records connect attempts. A handler context is a
`ChannelHandlerContext` that records what was passed on and flushed.

Files: `messages.dfy` (module `HttpMessages`: bytes, headers, messages,
decimal header values, header lookup), `client.dfy` (module `Client`),
`adapter.dfy` (module `Http2Adapter`).

Behaviours of the code that the model keeps as written:

- No ALPN mismatch check. The TLS context uses the NO_ADVERTISE and ACCEPT
  failure behaviours, and the client never compares the negotiated protocol
  with its version.
- The headers object the adapter passes on has no is-final flag.
- Every HEADERS frame that converts starts a response, trailing ones too
  (`Http2Adapter.DetailedInboundHttp2ToHttpAdapter.RunOwnContent` counts them).
- The stream identifier goes only to the response handler. It is not
  written into the request.
- A second HTTP/1.1 dispatch is not refused. It adds another response handler.

## Model

| member | source | states |
|---|---|---|
| `HttpMessages.DecimalString` | src/main/java/example/AsyncHttpClient.java:150 | The Content-Length value is decimal digits only, never empty, with a leading zero only for an empty body. |
| `HttpMessages.DecimalRoundTrip` | src/main/java/example/AsyncHttpClient.java:150 | Reading the Content-Length text back gives exactly the body length. |
| `HttpMessages.DecimalStringInjective` | src/main/java/example/AsyncHttpClient.java:150 | Different body lengths give different Content-Length values. |
| `HttpMessages.GetAllAppend` | src/main/java/example/AsyncHttpClient.java:148-155 | With add-not-set, the values stored under a name in an appended header list are those of the first part, then those of the second. |
| `HttpMessages.GetIsFirstOfGetAll` | src/main/java/example/AsyncHttpClient.java:148-155 | A single-value lookup returns the first value stored under the name, or nothing. |
| `Client.AlpnProtocol` | src/main/java/example/AsyncHttpClient.java:194 | The offered ALPN name is `h2` exactly for HTTP_2 and `http/1.1` exactly for HTTP_1_1. |
| `Client.AlpnRoundTrip` | src/main/java/example/AsyncHttpClient.java:188-194 | A handshake that selects the offered name stands for the configured version. |
| `Client.PipelineShape` | src/main/java/example/AsyncHttpClient.java:113-133 | The TLS stage is present iff useSSL, and then first with the version's ALPN name. There is a codec iff HTTP/1.1 and a connection handler iff HTTP/2. Decompression in either form is present iff decompressBody. HTTP/1.1 is codec, then a 10 MiB aggregator, then the optional decompressor. HTTP/2 is one last handler whose listener is the 10 MiB adapter, wrapped or not. |
| `Client.InitChannel` | src/main/java/example/AsyncHttpClient.java:113-133 | The initializer puts the TLS handler before everything already there and appends the version's stages. Nothing is written. |
| `Client.NewRequest` | src/main/java/example/AsyncHttpClient.java:147-155 | The built request is HTTP/1.1 with the caller's method, path and body. Its headers are Host, Content-Length and scheme, then the caller's entries in order. |
| `Client.OutboundHeaderOrder` | src/main/java/example/AsyncHttpClient.java:147-155 | There are 3 + n headers: Host = client host, Content-Length = body length (read back exactly), scheme = https iff useSSL, then caller entry i at position 3 + i. |
| `Client.InjectedNamesDistinct` | src/main/java/example/AsyncHttpClient.java:149-151 | The three injected header names are different from each other, whatever the letter case. |
| `Client.InjectedLookup` | src/main/java/example/AsyncHttpClient.java:149-151 | In the injected headers alone, each injected name finds exactly its own value. |
| `Client.InjectedNotReplaced` | src/main/java/example/AsyncHttpClient.java:149-155 | Whatever the caller passes, a Host of its own included, lookup of each injected name finds the injected value first. Every caller value for that name is kept after it. |
| `Client.CounterAfterClosedForm` | src/main/java/example/AsyncHttpClient.java:202-204 | After n allocations the counter is 3 + 2n. |
| `Client.IssuedIdsWellFormed` | src/main/java/example/AsyncHttpClient.java:202-204 | Every identifier handed out is odd, at least 3 and below the counter. Later identifiers are strictly larger. |
| `Client.IssuedIdsDistinct` | src/main/java/example/AsyncHttpClient.java:202-204 | No identifier is handed out twice. |
| `Client.IssuedIdsInRange` | src/main/java/example/AsyncHttpClient.java:202-204 | Up to the last available one, every identifier fits in 31 bits. |
| `Client.Wrap32` | src/main/java/example/AsyncHttpClient.java:203 | Java `int` arithmetic keeps results in [-2^31, 2^31), differs from the exact value by a multiple of 2^32, and leaves in-range values alone. |
| `Client.WrapShift` | src/main/java/example/AsyncHttpClient.java:203 | Adding after a wrap-around is the same as wrapping once at the end. |
| `Client.CounterAfter32ClosedForm` | src/main/java/example/AsyncHttpClient.java:202-204 | As written, after n getAndAdd(2) calls the counter is 3 + 2n reduced to 32 bits. |
| `Client.AsWrittenAgreesBelowLimit` | src/main/java/example/AsyncHttpClient.java:202-204 | Until the 31-bit range is used up, the as-written counter equals the unbounded one. |
| `Client.StreamIdCounterWraps` | src/main/java/example/AsyncHttpClient.java:202-204 | As written, the identifier after 1073741823 allocations is negative, and the one after 2^31 allocations is 3 again. |
| `Client.Channel.AddFirst` | src/main/java/example/AsyncHttpClient.java:116 | pipeline.addFirst puts the handler in front and writes nothing. |
| `Client.Channel.AddLast` | src/main/java/example/AsyncHttpClient.java:120 | pipeline.addLast puts the handler at the end and writes nothing. |
| `Client.Channel.WriteAndFlush` | src/main/java/example/AsyncHttpClient.java:161 | writeAndFlush appends the request to what was written and leaves the pipeline alone. |
| `Client.Network.Connect` | src/main/java/example/AsyncHttpClient.java:138-140 | A connect is recorded and yields a fresh channel to (host, port), with no handlers and nothing written. |
| `Client.AsyncHttpClient.Connected` | src/main/java/example/AsyncHttpClient.java:97-100 | A constructed client keeps its version, host and TLS flag, and its counter starts at 3 with nothing issued. |
| `Client.AsyncHttpClient.Open` | src/main/java/example/AsyncHttpClient.java:97-144 | Construction fails iff the version is HTTP_2 and useSSL is false, and then no connect is attempted. Otherwise there is one connect to (host, port), and the version is kept, never downgraded. The channel's pipeline is the configured one, the counter is 3 and nothing is written. |
| `Client.AsyncHttpClient.GetNextStreamId` | src/main/java/example/AsyncHttpClient.java:202-204 | Returns the counter's previous value and advances it by exactly 2. The value is odd, between 3 and 2^31 - 1, and larger than every earlier one. Once the range is used up it fails and changes nothing. |
| `Client.AsyncHttpClient.Run` | src/main/java/example/AsyncHttpClient.java:146-168 | The written request is the outbound request. HTTP/1.1 appends an HTTP/1.1 response handler and leaves the counter unchanged. HTTP/2 consumes exactly one identifier, gives it to the appended HTTP/2 response handler and writes exactly that request. Once the identifiers are used up, an HTTP/2 dispatch fails, adding no handler and writing nothing. |
| `Http2Adapter.ChannelHandlerContext.FireChannelRead` | src/main/java/example/DetailedInboundHttp2ToHttpAdapter.java:31 | fireChannelRead records exactly one passed-on object. |
| `Http2Adapter.ChannelHandlerContext.Flush` | src/main/java/example/DetailedInboundHttp2ToHttpAdapter.java:36 | flush records exactly one flush. |
| `Http2Adapter.HeadersFrameEvents` | src/main/java/example/DetailedInboundHttp2ToHttpAdapter.java:28-36 | A HEADERS frame whose block converts passes on exactly two objects and then flushes. First comes the response start with the conversion's version and status, then the conversion's headers. No content and no last marker are passed on. |
| `Http2Adapter.PriorityIrrelevant` | src/main/java/example/DetailedInboundHttp2ToHttpAdapter.java:40-51 | The priority fields do not change what the adapter passes on. |
| `Http2Adapter.DataFrameEvents` | src/main/java/example/DetailedInboundHttp2ToHttpAdapter.java:58-60 | A DATA frame passes on exactly one content object with the frame's bytes. It is marked last iff endOfStream, and no response start is passed on. |
| `Http2Adapter.SuperEventsCounts` | src/main/java/example/DetailedInboundHttp2ToHttpAdapter.java:26 | The whole messages the superclass passes on reach the next handler as they are. Each counts as one response start and one last content object and carries its whole body, as FullHttpResponse extends HttpResponse and LastHttpContent. |
| `Http2Adapter.SuperThenOwnCounts` | src/main/java/example/DetailedInboundHttp2ToHttpAdapter.java:26-36 | A log of the superclass's whole messages followed by the adapter's own objects reads as the sum of the two parts: bodies then own content, and one last marker and one response start per whole message added to the own counts. |
| `Http2Adapter.DetailedInboundHttp2ToHttpAdapter.FrameStepContent` | src/main/java/example/DetailedInboundHttp2ToHttpAdapter.java:25-63 | For one frame on either override: if the superclass throws, nothing is passed on and its state is kept. Otherwise the log is the superclass's whole messages followed by the adapter's own objects. Those carry the frame's DATA payload, one last marker iff a DATA frame ends its stream, and one response start iff a HEADERS block converts. |
| `Http2Adapter.DetailedInboundHttp2ToHttpAdapter.RunOwnContent` | src/main/java/example/DetailedInboundHttp2ToHttpAdapter.java:25-63 | Over any run of frames through the overrides, the superclass's state carried from frame to frame, the adapter's own objects carry as content exactly the DATA payloads of the frames the superclass accepted, in arrival order. Their last markers number the accepted DATA frames that end their stream. Every accepted HEADERS frame that converts, trailing ones too, starts exactly one response. |
| `Http2Adapter.DetailedInboundHttp2ToHttpAdapter.RunSplitCounts` | src/main/java/example/DetailedInboundHttp2ToHttpAdapter.java:25-63 | The whole log of a run has one last marker and one response start per whole message the superclass passed on, on top of the adapter's own. |
| `Http2Adapter.DetailedInboundHttp2ToHttpAdapter.RunSplitContent` | src/main/java/example/DetailedInboundHttp2ToHttpAdapter.java:25-63 | The content bytes of a run's whole log are those of the adapter's own objects together with the superclass's whole-message bodies, and no others. |
| `Http2Adapter.DetailedInboundHttp2ToHttpAdapter.RunContent` | src/main/java/example/DetailedInboundHttp2ToHttpAdapter.java:25-63 | In the whole log of a run, the content bytes are the accepted DATA payloads together with the bodies of the superclass's whole messages. There are as many last markers as accepted DATA frames that end their stream plus whole messages, and as many response starts as accepted converting HEADERS frames plus whole messages. |
| `Http2Adapter.MessagesAppend` | src/main/java/example/DetailedInboundHttp2ToHttpAdapter.java:31-34 | What is passed on over two stretches of the context log is what each passes on, in order. |
| `Http2Adapter.DetailedInboundHttp2ToHttpAdapter.constructor` | src/main/java/example/DetailedInboundHttp2ToHttpAdapter.java:18-22 | The adapter is built over the superclass with the 10 MiB cap. |
| `Http2Adapter.DetailedInboundHttp2ToHttpAdapter.EffectIsSuperThenOwn` | src/main/java/example/DetailedInboundHttp2ToHttpAdapter.java:25-62 | When the superclass throws, the state is kept and nothing is passed on. Otherwise what is passed on is the superclass's whole messages followed by the adapter's own, and the count returned is the superclass's. |
| `Http2Adapter.DetailedInboundHttp2ToHttpAdapter.SuperOnHeadersRead` | src/main/java/example/DetailedInboundHttp2ToHttpAdapter.java:26 | The superclass call either throws with no effect, or updates its state and passes on its whole messages. |
| `Http2Adapter.DetailedInboundHttp2ToHttpAdapter.HandleHeaders` | src/main/java/example/DetailedInboundHttp2ToHttpAdapter.java:25-36 | The superclass runs first. The two objects and the flush follow only if it and the conversion both return. |
| `Http2Adapter.DetailedInboundHttp2ToHttpAdapter.OnHeadersRead` | src/main/java/example/DetailedInboundHttp2ToHttpAdapter.java:24-37 | The new state, the log and the outcome are the HEADERS effect of the frame without priority. |
| `Http2Adapter.DetailedInboundHttp2ToHttpAdapter.OnHeadersReadWithPriority` | src/main/java/example/DetailedInboundHttp2ToHttpAdapter.java:39-52 | The same HEADERS effect, with the priority fields passed only to the superclass. |
| `Http2Adapter.DetailedInboundHttp2ToHttpAdapter.OnDataRead` | src/main/java/example/DetailedInboundHttp2ToHttpAdapter.java:54-63 | The superclass runs first. If it throws, nothing is passed on. Otherwise one content object (last iff endOfStream) and a flush follow, and the superclass's processed-byte count is returned unchanged. |

## Findings

| source | as written | input that shows it | evidently intended | confidence | as-written member | corrected member |
|---|---|---|---|---|---|---|
| src/main/java/example/AsyncHttpClient.java:202-204 | `streamIdCounter.getAndAdd(2)` on a 32-bit `AtomicInteger` wraps around. | On one connection, dispatch 1073741824 HTTP/2 requests. The last gets identifier -2147483647. After 2^31 allocations, identifier 3 is handed out a second time. | Odd, increasing, never reused identifiers no larger than 2^31 - 1. Allocation stops once they run out (section 5.1.1 of RFC 7540). | medium, not executed | `Client.CounterAfter32` with `Client.StreamIdCounterWraps` | `Client.AsyncHttpClient.GetNextStreamId` with `Client.IssuedIdsWellFormed` |

## Left out

- Netty bootstrap, event-loop group, channel registration, `close`, and every `sync`/`syncUninterruptibly` wait are left out. These are I/O and concurrency, so dispatch is modelled as a sequential call.
- A connect that fails (refused, timed out, interrupted) is left out because it is I/O. `Network.Connect` always succeeds.
- The event-loop group is created before the HTTP/2-without-TLS guard and is not shut down when the guard throws. Resources are not modelled.
- Atomicity of the `AtomicInteger` is left out. The counter is a plain field, and concurrent allocation is out of scope.
- TLS context construction, provider choice, cipher filter, the insecure trust manager and the NO_ADVERTISE/ACCEPT failure behaviours are foreign calls. Only the ALPN name is modelled.
- The superclass `InboundHttp2ToHttpAdapter` and `HttpConversionUtil.toHttpResponse` are not visible. This covers aggregation, the enforcement of the 10 MiB cap, and status parsing. They are function values that may throw. The superclass's output is modelled as whole response messages only; it is never modelled as passing on separate content objects, response starts or flushes.
- Http2Adapter.DetailedInboundHttp2ToHttpAdapter.SuperOnHeadersRead: a superclass call that throws is modelled as having no effect, because whatever it did before throwing is not visible.
- `Http1ResponseHandler`, `Http2ResponseHandler` and `DetailedHttpObjectAggregator` (the per-request correlator) are not part of this model. They appear only as pipeline entries.
- The HTTP/2 branch constructs the adapter with two arguments, but the adapter declares only a one-argument constructor. The pipeline records the client's cap (`Client.MaxContentLength`, AsyncHttpClient.java:62), and the adapter's constructor uses its own (`Http2Adapter.MaxContentLength`, DetailedInboundHttp2ToHttpAdapter.java:18). Both are 10 MiB, and the model does not reconcile the constructors.
- The allocated stream identifier is not written into the request, and wire-level stream tagging is not modelled.
- The demonstration `main`, body decompression, the response promise and its resolution, and `FIRE_EXCEPTION_ON_FAILURE` error propagation are left out.
- Client.AsyncHttpClient.Run: returns the written request rather than the promise. The callbacks are not modelled. Once `GetNextStreamId` refuses, an HTTP/2 dispatch fails, adding no handler and writing nothing; the source wraps the identifier and writes.
- Client.AsyncHttpClient.GetNextStreamId: follows the corrected allocator under "Findings". It refuses once the 31-bit range is used up instead of wrapping as the source does.
- Validation inside Netty is foreign code and is left out. This covers `HttpMethod.valueOf` refusing a blank or malformed method, and header-name validation on `add`. The method is kept as its text.
- The request body is not copied: `Unpooled.wrappedBuffer(body)` (AsyncHttpClient.java:147) shares the caller's array, and the HTTP/2 write is not awaited (line 165), so a later change to the array can change the bytes sent. The model takes the body as an immutable value, and this aliasing is not modelled.
- The caller's header `Map` is a sequence of entries in the map's iteration order. The reference counting of `data.retain()` is left out.
