/** The client's own decisions in AsyncHttpClient: refusing HTTP/2 without TLS,
    the ALPN protocol it offers, the handler pipeline its channel initializer
    builds, the outbound request it writes, and the stream-identifier counter
    that HTTP/2 dispatch consumes. Netty's bootstrap, event loop and futures
    are reduced to a Network that records connect attempts and a Channel that
    records its handlers and the requests written to it. */
module Client {
  import opened HttpMessages

  datatype Version = HTTP_1_1 | HTTP_2

  // ---------------------------------------------------------------------
  // Construction guard
  // ---------------------------------------------------------------------

  /** The IllegalArgumentException of the constructor. */
  datatype ConfigError = Http2RequiresSsl

  /** Errors of a dispatch. */
  datatype ClientError = StreamIdsExhausted

  // ---------------------------------------------------------------------
  // ALPN offer (RFC 7301 section 3)
  // ---------------------------------------------------------------------

  /** Protocol identifier of HTTP/2 over TLS (section 3.3 of RFC 7540). */
  const ALPN_HTTP_2: string := "h2"
  /** Protocol identifier of HTTP/1.1 (section 6 of RFC 7301). */
  const ALPN_HTTP_1_1: string := "http/1.1"

  /** The single protocol name the TLS handler offers for `version`. */
  function AlpnProtocol(version: Version): (name: string)
    ensures name == ALPN_HTTP_2 <==> version == HTTP_2
    ensures name == ALPN_HTTP_1_1 <==> version == HTTP_1_1
  {
    assert |ALPN_HTTP_2| == 2 && |ALPN_HTTP_1_1| == 8;
    match version
    case HTTP_2 => ALPN_HTTP_2
    case HTTP_1_1 => ALPN_HTTP_1_1
  }

  /** The version a handshake that selected protocol `name` stands for. */
  function AlpnVersion(name: string): Option<Version> {
    if name == ALPN_HTTP_2 then Some(HTTP_2)
    else if name == ALPN_HTTP_1_1 then Some(HTTP_1_1)
    else None
  }

  /** A handshake that selects the offered name yields the configured version. */
  lemma AlpnRoundTrip(version: Version)
    ensures AlpnVersion(AlpnProtocol(version)) == Some(version)
  {
  }

  // ---------------------------------------------------------------------
  // Pipeline stages
  // ---------------------------------------------------------------------

  /** What the HTTP/2 connection handler hands decoded frames to. */
  datatype FrameListener =
    | AdapterListener(maxContentLength: nat)
    | DelegatingDecompressorFrameListener(delegate: FrameListener)

  /** The channel handlers that the client places in a channel's pipeline. */
  datatype Handler =
    | SslHandler(alpnProtocols: seq<string>)
    | HttpClientCodec
    | DetailedHttpObjectAggregator(maxContentLength: nat)
    | HttpContentDecompressor
    | HttpToHttp2ConnectionHandler(frameListener: FrameListener)
    | Http1ResponseHandler
    | Http2ResponseHandler(streamId: int)

  /** The TLS handler of createSslHandler, reduced to its ALPN offer. */
  function CreateSslHandler(version: Version): Handler {
    SslHandler([AlpnProtocol(version)])
  }

  /** The client's cap on an aggregated body: 10 MiB. */
  const MaxContentLength: nat := 10 * 1024 * 1024

  /** The stage placed first when TLS is on. */
  function SslStages(version: Version, useSSL: bool): seq<Handler> {
    if useSSL then [CreateSslHandler(version)] else []
  }

  /** The stages appended after it for each version. */
  function ProtocolStages(version: Version, decompressBody: bool): seq<Handler> {
    match version
    case HTTP_1_1 =>
      [HttpClientCodec, DetailedHttpObjectAggregator(MaxContentLength)]
        + (if decompressBody then [HttpContentDecompressor] else [])
    case HTTP_2 =>
      var adapter := AdapterListener(MaxContentLength);
      [HttpToHttp2ConnectionHandler(
         if decompressBody then DelegatingDecompressorFrameListener(adapter) else adapter)]
  }

  /** The pipeline of a freshly connected channel. */
  function PipelineStages(version: Version, useSSL: bool, decompressBody: bool): seq<Handler> {
    SslStages(version, useSSL) + ProtocolStages(version, decompressBody)
  }

  predicate Decompresses(h: Handler) {
    h.HttpContentDecompressor?
    || (h.HttpToHttp2ConnectionHandler? && h.frameListener.DelegatingDecompressorFrameListener?)
  }

  /** The shape of the pipeline, stage by stage, as the configuration decides it. */
  lemma PipelineShape(version: Version, useSSL: bool, decompressBody: bool)
    ensures var r := PipelineStages(version, useSSL, decompressBody);
      // TLS: present iff useSSL, and then first, offering the version's ALPN name
      && (useSSL <==> (exists i :: 0 <= i < |r| && r[i].SslHandler?))
      && (forall i :: 0 <= i < |r| && r[i].SslHandler? ==>
            i == 0 && r[i].alpnProtocols == [AlpnProtocol(version)])
      // one protocol family only
      && (version == HTTP_1_1 <==> (exists i :: 0 <= i < |r| && r[i].HttpClientCodec?))
      && (version == HTTP_2 <==> (exists i :: 0 <= i < |r| && r[i].HttpToHttp2ConnectionHandler?))
      // decompression in either form iff decompressBody
      && (decompressBody <==> (exists i :: 0 <= i < |r| && Decompresses(r[i])))
      // HTTP/1.1: codec, then a 10 MiB aggregator, then the decompressor if any
      && (version == HTTP_1_1 ==>
            var k := if useSSL then 1 else 0;
            |r| == k + (if decompressBody then 3 else 2)
            && r[k] == HttpClientCodec
            && r[k + 1] == DetailedHttpObjectAggregator(MaxContentLength))
      // HTTP/2: one connection handler, last, feeding the 10 MiB adapter
      && (version == HTTP_2 ==>
            |r| == (if useSSL then 2 else 1)
            && r[|r| - 1].HttpToHttp2ConnectionHandler?
            && (var l := r[|r| - 1].frameListener;
                (if l.DelegatingDecompressorFrameListener? then l.delegate else l)
                  == AdapterListener(MaxContentLength)))
  {
    var r := PipelineStages(version, useSSL, decompressBody);
    var k := if useSSL then 1 else 0;
    if useSSL {
      assert r[0].SslHandler?;
    }
    assert r[k] == if version == HTTP_1_1 then HttpClientCodec else r[|r| - 1];
    if decompressBody {
      assert Decompresses(r[|r| - 1]);
    } else {
      assert forall i :: 0 <= i < |r| ==> !Decompresses(r[i]);
    }
  }

  // ---------------------------------------------------------------------
  // Outbound request
  // ---------------------------------------------------------------------

  /** HttpHeaderNames.HOST. */
  const HOST: string := "host"
  /** HttpHeaderNames.CONTENT_LENGTH. */
  const CONTENT_LENGTH: string := "content-length"
  /** HttpConversionUtil.ExtensionHeaderNames.SCHEME. */
  const SCHEME: string := "x-http2-scheme"

  function Scheme(useSSL: bool): string {
    if useSSL then "https" else "http"
  }

  /** The three headers the client adds to every request, in order. */
  function InjectedHeaders(host: string, contentLength: nat, useSSL: bool): seq<Header> {
    [Header(HOST, host), Header(CONTENT_LENGTH, DecimalString(contentLength)), Header(SCHEME, Scheme(useSSL))]
  }

  /** `req` is what the client writes for this call: an HTTP/1.1 request line
      whatever the connection's version, the injected headers, then the
      caller's entries appended in iteration order, and the caller's body. */
  predicate IsOutboundRequest(req: FullHttpRequest, host: string, useSSL: bool,
                              httpMethod: string, path: string, headerMap: seq<Header>, body: seq<byte>)
  {
    && req.protocolVersion == HTTP_1_1_TEXT
    && req.httpMethod == httpMethod
    && req.uri == path
    && req.content == body
    && req.headers == InjectedHeaders(host, |body|, useSSL) + headerMap
  }

  /** Entry by entry: Host, Content-Length, scheme, then the caller's, 3 + n in all. */
  lemma OutboundHeaderOrder(req: FullHttpRequest, host: string, useSSL: bool,
                            httpMethod: string, path: string, headerMap: seq<Header>, body: seq<byte>)
    requires IsOutboundRequest(req, host, useSSL, httpMethod, path, headerMap, body)
    ensures |req.headers| == 3 + |headerMap|
    ensures req.headers[0] == Header(HOST, host)
    ensures req.headers[1] == Header(CONTENT_LENGTH, DecimalString(|body|))
    ensures ParseDecimal(req.headers[1].value) == |body|
    ensures req.headers[2] == Header(SCHEME, Scheme(useSSL))
    ensures forall i :: 0 <= i < |headerMap| ==> req.headers[3 + i] == headerMap[i]
  {
    DecimalRoundTrip(|body|);
  }

  /** Caller headers are added, not set: whatever the caller passes (a "Host"
      of its own included), the injected value is the one found first, and
      every caller value for that name is kept after it. */
  lemma InjectedNotReplaced(req: FullHttpRequest, host: string, useSSL: bool,
                            httpMethod: string, path: string, headerMap: seq<Header>, body: seq<byte>)
    requires IsOutboundRequest(req, host, useSSL, httpMethod, path, headerMap, body)
    ensures GetAll(req.headers, HOST) == [host] + GetAll(headerMap, HOST)
    ensures GetAll(req.headers, CONTENT_LENGTH) == [DecimalString(|body|)] + GetAll(headerMap, CONTENT_LENGTH)
    ensures GetAll(req.headers, SCHEME) == [Scheme(useSSL)] + GetAll(headerMap, SCHEME)
    ensures Get(req.headers, HOST) == Some(host)
    ensures Get(req.headers, CONTENT_LENGTH) == Some(DecimalString(|body|))
    ensures Get(req.headers, SCHEME) == Some(Scheme(useSSL))
  {
    var injected := InjectedHeaders(host, |body|, useSSL);
    InjectedLookup(host, |body|, useSSL);
    GetAllAppend(injected, headerMap, HOST);
    GetAllAppend(injected, headerMap, CONTENT_LENGTH);
    GetAllAppend(injected, headerMap, SCHEME);
    GetIsFirstOfGetAll(req.headers, HOST);
    GetIsFirstOfGetAll(req.headers, CONTENT_LENGTH);
    GetIsFirstOfGetAll(req.headers, SCHEME);
  }

  /** The three injected names are pairwise different, whatever the case. */
  lemma InjectedNamesDistinct()
    ensures SameName(HOST, HOST) && SameName(CONTENT_LENGTH, CONTENT_LENGTH) && SameName(SCHEME, SCHEME)
    ensures !SameName(HOST, CONTENT_LENGTH) && !SameName(HOST, SCHEME)
    ensures !SameName(CONTENT_LENGTH, HOST) && !SameName(SCHEME, HOST)
    ensures !SameName(CONTENT_LENGTH, SCHEME) && !SameName(SCHEME, CONTENT_LENGTH)
  {
    assert |HOST| == 4 && |CONTENT_LENGTH| == 14 && |SCHEME| == 14;
    assert CONTENT_LENGTH[0] == 'c' && SCHEME[0] == 'x';
    assert LowerAscii(CONTENT_LENGTH[0]) != LowerAscii(SCHEME[0]);
  }

  /** Each injected name finds exactly its own injected value. */
  lemma InjectedLookup(host: string, contentLength: nat, useSSL: bool)
    ensures GetAll(InjectedHeaders(host, contentLength, useSSL), HOST) == [host]
    ensures GetAll(InjectedHeaders(host, contentLength, useSSL), CONTENT_LENGTH) == [DecimalString(contentLength)]
    ensures GetAll(InjectedHeaders(host, contentLength, useSSL), SCHEME) == [Scheme(useSSL)]
  {
    var a, b, c := Header(HOST, host), Header(CONTENT_LENGTH, DecimalString(contentLength)), Header(SCHEME, Scheme(useSSL));
    assert InjectedHeaders(host, contentLength, useSSL) == [a] + ([b] + [c]);
    InjectedNamesDistinct();
    forall name | name in {HOST, CONTENT_LENGTH, SCHEME}
      ensures GetAll([a] + ([b] + [c]), name) == GetAll([a], name) + GetAll([b], name) + GetAll([c], name)
    {
      GetAllAppend([a], [b] + [c], name);
      GetAllAppend([b], [c], name);
    }
    GetAllSingle(a, HOST); GetAllSingle(b, HOST); GetAllSingle(c, HOST);
    GetAllSingle(a, CONTENT_LENGTH); GetAllSingle(b, CONTENT_LENGTH); GetAllSingle(c, CONTENT_LENGTH);
    GetAllSingle(a, SCHEME); GetAllSingle(b, SCHEME); GetAllSingle(c, SCHEME);
  }

  // ---------------------------------------------------------------------
  // Stream identifiers (section 5.1.1 of RFC 7540)
  // ---------------------------------------------------------------------

  /** The counter's initial value: the first identifier handed out. */
  const FirstStreamId: int := 3
  /** Largest stream identifier: identifiers are 31-bit. */
  const MaxStreamId: int := 0x7FFF_FFFF
  /** How many odd identifiers lie in [FirstStreamId, MaxStreamId]. */
  const MaxClientStreams: nat := (MaxStreamId - FirstStreamId) / 2 + 1

  /** The counter after `n` allocations, each adding 2. */
  function CounterAfter(n: nat): int {
    if n == 0 then FirstStreamId else CounterAfter(n - 1) + 2
  }

  /** The identifiers handed out by the first `n` allocations, in order. */
  function IssuedIds(n: nat): (ids: seq<int>)
    ensures |ids| == n
  {
    if n == 0 then [] else IssuedIds(n - 1) + [CounterAfter(n - 1)]
  }

  lemma {:induction false} CounterAfterClosedForm(n: nat)
    ensures CounterAfter(n) == FirstStreamId + 2 * n
  {
    if n > 0 {
      CounterAfterClosedForm(n - 1);
    }
  }

  /** Every identifier handed out is odd, at least 3, below the counter,
      and later ones are strictly larger. */
  lemma {:induction false} IssuedIdsWellFormed(n: nat)
    ensures |IssuedIds(n)| == n
    ensures forall i :: 0 <= i < n ==>
      IssuedIds(n)[i] % 2 == 1 && FirstStreamId <= IssuedIds(n)[i] < CounterAfter(n)
    ensures forall i, j :: 0 <= i < j < n ==> IssuedIds(n)[i] < IssuedIds(n)[j]
  {
    if n > 0 {
      var prev := IssuedIds(n - 1);
      IssuedIdsWellFormed(n - 1);
      CounterAfterClosedForm(n - 1);
      CounterAfterClosedForm(n);
      assert IssuedIds(n) == prev + [CounterAfter(n - 1)];
      assert forall i :: 0 <= i < n - 1 ==> IssuedIds(n)[i] == prev[i];
    }
  }

  /** No identifier is handed out twice. */
  lemma IssuedIdsDistinct(n: nat)
    ensures forall i, j :: 0 <= i < n && 0 <= j < n && i != j ==> IssuedIds(n)[i] != IssuedIds(n)[j]
  {
    IssuedIdsWellFormed(n);
  }

  /** Up to the last available identifier, every one fits in 31 bits. */
  lemma IssuedIdsInRange(n: nat)
    requires n <= MaxClientStreams
    ensures forall i :: 0 <= i < n ==> IssuedIds(n)[i] <= MaxStreamId
  {
    IssuedIdsWellFormed(n);
    CounterAfterClosedForm(n);
  }

  // As written, the counter is a Java AtomicInteger: getAndAdd(2) wraps at 32 bits.

  const TwoTo32: int := 0x1_0000_0000
  const TwoTo31: int := 0x8000_0000

  /** Java `int` arithmetic: `x` reduced into [-2^31, 2^31). */
  function Wrap32(x: int): (r: int)
    ensures -TwoTo31 <= r < TwoTo31
    ensures -TwoTo31 <= x < TwoTo31 ==> r == x
    ensures (r - x) % TwoTo32 == 0
  {
    (x + TwoTo31) % TwoTo32 - TwoTo31
  }

  lemma WrapShift(x: int, d: int)
    ensures Wrap32(Wrap32(x) + d) == Wrap32(x + d)
  {
    var q := (x + TwoTo31) / TwoTo32;
    assert Wrap32(x) + d + TwoTo31 == (x + d + TwoTo31) - TwoTo32 * q;
  }

  lemma WrapAt(x: int, r: int)
    requires (x == 0x8000_0001 && r == -0x7FFF_FFFF) || (x == 0x1_0000_0003 && r == 3)
    ensures Wrap32(x) == r
  {
  }

  /** The counter after `n` calls of getAndAdd(2), as the source computes it. */
  function CounterAfter32(n: nat): int {
    if n == 0 then FirstStreamId else Wrap32(CounterAfter32(n - 1) + 2)
  }

  lemma {:induction false} CounterAfter32ClosedForm(n: nat)
    ensures CounterAfter32(n) == Wrap32(FirstStreamId + 2 * n)
  {
    if n > 0 {
      CounterAfter32ClosedForm(n - 1);
      WrapShift(FirstStreamId + 2 * (n - 1), 2);
      assert FirstStreamId + 2 * (n - 1) + 2 == FirstStreamId + 2 * n;
    }
  }

  /** Before the 31-bit range is used up, the as-written counter agrees
      with the unbounded one. */
  lemma AsWrittenAgreesBelowLimit(n: nat)
    requires n < MaxClientStreams
    ensures CounterAfter32(n) == CounterAfter(n)
  {
    CounterAfter32ClosedForm(n);
    CounterAfterClosedForm(n);
  }

  /** As written, the identifier handed out after MaxClientStreams
      allocations is negative, and the one after 2^31 allocations is 3, the
      first one, again: identifiers are neither valid nor unique once the
      31-bit range is used up. (`n` names the allocation count, so that the
      counter is not unfolded a billion times.) */
  lemma StreamIdCounterWraps(n: nat)
    ensures n == MaxClientStreams ==> CounterAfter32(n) == -0x7FFF_FFFF
    ensures n == TwoTo31 ==> CounterAfter32(n) == FirstStreamId
  {
    CounterAfter32ClosedForm(n);
    if n == MaxClientStreams {
      assert FirstStreamId + 2 * n == 0x8000_0001;
      WrapAt(FirstStreamId + 2 * n, -0x7FFF_FFFF);
    }
    if n == TwoTo31 {
      assert FirstStreamId + 2 * n == 0x1_0000_0003;
      WrapAt(FirstStreamId + 2 * n, FirstStreamId);
    }
  }

  // ---------------------------------------------------------------------
  // Network, channel and client
  // ---------------------------------------------------------------------

  /** A connected channel: its pipeline, first to last, and the requests
      written and flushed to it, in order. */
  class Channel {
    const remoteHost: string
    const remotePort: int
    var handlers: seq<Handler>
    var written: seq<FullHttpRequest>

    constructor (host: string, port: int)
      ensures remoteHost == host && remotePort == port
      ensures handlers == [] && written == []
    {
      remoteHost, remotePort := host, port;
      handlers, written := [], [];
    }

    method AddFirst(h: Handler)
      modifies this
      ensures handlers == [h] + old(handlers) && written == old(written)
    {
      handlers := [h] + handlers;
    }

    method AddLast(h: Handler)
      modifies this
      ensures handlers == old(handlers) + [h] && written == old(written)
    {
      handlers := handlers + [h];
    }

    method WriteAndFlush(req: FullHttpRequest)
      modifies this
      ensures written == old(written) + [req] && handlers == old(handlers)
    {
      written := written + [req];
    }
  }

  /** The network the bootstrap connects through; it records every attempt. */
  class Network {
    var connectAttempts: seq<(string, int)>

    constructor ()
      ensures connectAttempts == []
    {
      connectAttempts := [];
    }

    method Connect(host: string, port: int) returns (ch: Channel)
      modifies this
      ensures fresh(ch)
      ensures ch.remoteHost == host && ch.remotePort == port
      ensures ch.handlers == [] && ch.written == []
      ensures connectAttempts == old(connectAttempts) + [(host, port)]
    {
      connectAttempts := connectAttempts + [(host, port)];
      ch := new Channel(host, port);
    }
  }

  /** The channel initializer: TLS first when asked for, then the version's stages. */
  method InitChannel(channel: Channel, version: Version, useSSL: bool, decompressBody: bool)
    modifies channel
    ensures channel.handlers
      == SslStages(version, useSSL) + old(channel.handlers) + ProtocolStages(version, decompressBody)
    ensures channel.written == old(channel.written)
  {
    if useSSL {
      channel.AddFirst(CreateSslHandler(version));
    }
    if version == HTTP_1_1 {
      channel.AddLast(HttpClientCodec);
      channel.AddLast(DetailedHttpObjectAggregator(MaxContentLength));
      if decompressBody {
        channel.AddLast(HttpContentDecompressor);
      }
    } else if version == HTTP_2 {
      var adapter := AdapterListener(MaxContentLength);
      channel.AddLast(HttpToHttp2ConnectionHandler(
        if decompressBody then DelegatingDecompressorFrameListener(adapter) else adapter));
    }
  }

  /** Builds the request `run` writes: request line, three injected headers,
      then the caller's entries in iteration order. */
  method NewRequest(host: string, useSSL: bool, httpMethod: string, path: string,
                    headerMap: seq<Header>, body: seq<byte>) returns (req: FullHttpRequest)
    ensures IsOutboundRequest(req, host, useSSL, httpMethod, path, headerMap, body)
  {
    var headers: seq<Header> := [];
    headers := headers + [Header(HOST, host)];
    headers := headers + [Header(CONTENT_LENGTH, DecimalString(|body|))];
    headers := headers + [Header(SCHEME, Scheme(useSSL))];
    var i := 0;
    while i < |headerMap|
      invariant 0 <= i <= |headerMap|
      invariant headers == InjectedHeaders(host, |body|, useSSL) + headerMap[..i]
    {
      headers := headers + [headerMap[i]];
      i := i + 1;
    }
    req := FullHttpRequest(HTTP_1_1_TEXT, httpMethod, path, headers, body);
  }

  class AsyncHttpClient {
    const version: Version
    const host: string
    const useSSL: bool
    const channel: Channel
    var streamIdCounter: int
    /** The identifiers handed out so far, in order. */
    ghost var issued: seq<int>

    ghost predicate Valid()
      reads this
    {
      && (version == HTTP_2 ==> useSSL)
      && |issued| <= MaxClientStreams
      && issued == IssuedIds(|issued|)
      && streamIdCounter == CounterAfter(|issued|)
    }

    /** The part of the constructor after its guard. */
    constructor Connected(version: Version, host: string, useSSL: bool, channel: Channel)
      requires version == HTTP_2 ==> useSSL
      ensures Valid()
      ensures this.version == version && this.host == host && this.useSSL == useSSL
      ensures this.channel == channel
      ensures streamIdCounter == FirstStreamId && issued == []
    {
      this.version, this.host, this.useSSL, this.channel := version, host, useSSL, channel;
      streamIdCounter := FirstStreamId;
      issued := [];
    }

    /** `new AsyncHttpClient(...)`: HTTP/2 without TLS is refused before any
        connect; otherwise one connect to (host, port), whose channel gets the
        configured pipeline, and a counter at 3. The version is never changed. */
    static method Open(network: Network, version: Version, host: string, port: int,
                       useSSL: bool, decompressBody: bool)
      returns (r: Result<AsyncHttpClient, ConfigError>)
      modifies network
      ensures r.Failure? <==> version == HTTP_2 && !useSSL
      ensures r.Failure? ==>
        r.error == Http2RequiresSsl && network.connectAttempts == old(network.connectAttempts)
      ensures r.Success? ==>
        && fresh(r.value) && fresh(r.value.channel) && r.value.Valid()
        && r.value.version == version && r.value.host == host && r.value.useSSL == useSSL
        && r.value.streamIdCounter == FirstStreamId && r.value.issued == []
        && network.connectAttempts == old(network.connectAttempts) + [(host, port)]
        && r.value.channel.remoteHost == host && r.value.channel.remotePort == port
        && r.value.channel.handlers == PipelineStages(version, useSSL, decompressBody)
        && r.value.channel.written == []
    {
      if version == HTTP_2 && !useSSL {
        return Failure(Http2RequiresSsl);
      }
      var ch := network.Connect(host, port);
      InitChannel(ch, version, useSSL, decompressBody);
      var client := new AsyncHttpClient.Connected(version, host, useSSL, ch);
      return Success(client);
    }

    /** getAndAdd(2): the counter's previous value, the counter 2 higher.
        Once the 31-bit range is used up it refuses instead of wrapping. */
    method GetNextStreamId() returns (r: Result<int, ClientError>)
      requires Valid()
      modifies this`streamIdCounter, this`issued
      ensures Valid()
      ensures old(streamIdCounter) <= MaxStreamId ==>
        && r == Success(old(streamIdCounter))
        && streamIdCounter == old(streamIdCounter) + 2
        && issued == old(issued) + [old(streamIdCounter)]
      ensures old(streamIdCounter) > MaxStreamId ==>
        r == Failure(StreamIdsExhausted) && streamIdCounter == old(streamIdCounter) && issued == old(issued)
      ensures r.Success? ==>
        && r.value % 2 == 1 && FirstStreamId <= r.value <= MaxStreamId
        && forall i :: 0 <= i < |old(issued)| ==> old(issued)[i] < r.value
    {
      if streamIdCounter > MaxStreamId {
        return Failure(StreamIdsExhausted);
      }
      IssuedIdsWellFormed(|issued|);
      CounterAfterClosedForm(|issued|);
      r := Success(streamIdCounter);
      issued := issued + [streamIdCounter];
      streamIdCounter := streamIdCounter + 2;
    }

    /** `run`: build the request, attach the response handler, write it.
        Only HTTP/2 consumes a stream identifier. */
    method Run(httpMethod: string, path: string, headerMap: seq<Header>, body: seq<byte>)
      returns (r: Result<FullHttpRequest, ClientError>)
      requires Valid()
      modifies this`streamIdCounter, this`issued, channel
      ensures Valid()
      ensures r.Success? ==> IsOutboundRequest(r.value, host, useSSL, httpMethod, path, headerMap, body)
      ensures version == HTTP_1_1 ==>
        && r.Success?
        && streamIdCounter == old(streamIdCounter) && issued == old(issued)
        && channel.handlers == old(channel.handlers) + [Http1ResponseHandler]
        && channel.written == old(channel.written) + [r.value]
      ensures version == HTTP_2 && old(streamIdCounter) <= MaxStreamId ==>
        && r.Success?
        && streamIdCounter == old(streamIdCounter) + 2
        && issued == old(issued) + [old(streamIdCounter)]
        && channel.handlers == old(channel.handlers) + [Http2ResponseHandler(old(streamIdCounter))]
        && channel.written == old(channel.written) + [r.value]
      ensures version == HTTP_2 && old(streamIdCounter) > MaxStreamId ==>
        && r == Failure(StreamIdsExhausted)
        && streamIdCounter == old(streamIdCounter) && issued == old(issued)
        && channel.handlers == old(channel.handlers) && channel.written == old(channel.written)
    {
      var req := NewRequest(host, useSSL, httpMethod, path, headerMap, body);
      if version == HTTP_1_1 {
        channel.AddLast(Http1ResponseHandler);
        channel.WriteAndFlush(req);
      } else {
        var id := GetNextStreamId();
        if id.Failure? {
          return Failure(id.error);
        }
        channel.AddLast(Http2ResponseHandler(id.value));
        channel.WriteAndFlush(req);
      }
      r := Success(req);
    }
  }
}
