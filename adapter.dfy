/** DetailedInboundHttp2ToHttpAdapter: after the superclass has handled an
    HTTP/2 HEADERS or DATA frame (section 6.2 and 6.1 of RFC 7540), it passes
    HTTP/1.1-shaped objects down the pipeline itself, so that a response
    handler sees "response started", "headers" and "content" events whichever
    protocol carried them.

    The superclass (InboundHttp2ToHttpAdapter, which aggregates bodies and
    enforces the size cap) and HttpConversionUtil.toHttpResponse are not part
    of this model: they are function values given to the adapter when it is
    built, each free to throw. The superclass's own state is of an unknown
    type `S`, and the whole messages the superclass itself passes down the
    pipeline are part of its result. */
module Http2Adapter {
  import opened HttpMessages

  /** Cap on an aggregated body that the superclass is built with: 10 MiB. */
  const MaxContentLength: nat := 10 * 1024 * 1024

  /** A protocol error, thrown by the superclass or by the conversion. */
  datatype Http2Exception = Http2Exception(streamId: int, message: string)

  /** The header block of a HEADERS frame, pseudo-header fields included. */
  datatype Http2Headers = Http2Headers(entries: seq<Header>)

  /** The priority fields a HEADERS frame may carry. */
  datatype Priority = Priority(streamDependency: int, weight: int, exclusive: bool)

  datatype HeadersFrame = HeadersFrame(
    streamId: int, headers: Http2Headers, priority: Option<Priority>, padding: int, endOfStream: bool)

  datatype DataFrame = DataFrame(streamId: int, data: seq<byte>, padding: int, endOfStream: bool)

  datatype Frame = HeadersOf(headersFrame: HeadersFrame) | DataOf(dataFrame: DataFrame)

  /** What a handler passes to the next one in the pipeline. */
  datatype HttpObject =
    | HttpResponse(protocolVersion: string, status: int)  // DefaultHttpResponse: the response started
    | HttpHeaders(headers: seq<Header>)
    | HttpContent(content: seq<byte>, last: bool)         // DefaultLastHttpContent when `last`
    | FullResponse(response: FullHttpResponse)            // as the superclass passes on a whole message

  /** The bytes an object carries as content. A whole message is a content
      object too: FullHttpResponse extends LastHttpContent. */
  function Content(m: HttpObject): seq<byte> {
    match m
    case HttpContent(content, _) => content
    case FullResponse(response) => response.content
    case _ => []
  }

  /** Whether an object is a last content object: a DefaultLastHttpContent,
      or a whole message, which is a LastHttpContent. */
  predicate IsLast(m: HttpObject) {
    (m.HttpContent? && m.last) || m.FullResponse?
  }

  /** Whether an object is a response start: a DefaultHttpResponse, or a
      whole message, which is an HttpResponse. */
  predicate StartsResponse(m: HttpObject) {
    m.HttpResponse? || m.FullResponse?
  }

  /** What happens at the handler context, in order. */
  datatype CtxEvent = Passed(msg: HttpObject) | Flushed

  /** The handler context: a log of what was passed on and flushed. */
  class ChannelHandlerContext {
    var events: seq<CtxEvent>

    constructor ()
      ensures events == []
    {
      events := [];
    }

    method FireChannelRead(msg: HttpObject)
      modifies this
      ensures events == old(events) + [Passed(msg)]
    {
      events := events + [Passed(msg)];
    }

    method Flush()
      modifies this
      ensures events == old(events) + [Flushed]
    {
      events := events + [Flushed];
    }

    /** What a superclass call did at this context. */
    method Append(evs: seq<CtxEvent>)
      modifies this
      ensures events == old(events) + evs
    {
      events := events + evs;
    }
  }

  /** A superclass call that returned: its new state and the whole messages
      it passed on. */
  datatype SuperStep<S> = SuperStep(state: S, passedOn: seq<FullHttpResponse>)

  /** The same for onDataRead, which also returns the processed-byte count. */
  datatype SuperDataStep<S> = SuperDataStep(state: S, passedOn: seq<FullHttpResponse>, bytesProcessed: int)

  /** The events of the superclass passing on whole messages, in order. */
  function SuperEvents(passedOn: seq<FullHttpResponse>): seq<CtxEvent> {
    if passedOn == [] then []
    else [Passed(FullResponse(passedOn[0]))] + SuperEvents(passedOn[1..])
  }

  /** InboundHttp2ToHttpAdapter's two frame handlers, as functions of its
      state, the cap it was built with and the frame. */
  datatype Superclass<!S> = Superclass(
    onHeadersRead: (S, nat, HeadersFrame) -> Result<SuperStep<S>, Http2Exception>,
    onDataRead: (S, nat, DataFrame) -> Result<SuperDataStep<S>, Http2Exception>)

  /** HttpConversionUtil.toHttpResponse(streamId, headers, ...). */
  type Conversion = (int, Http2Headers) -> Result<FullHttpResponse, Http2Exception>

  /** What the adapter itself passes on for a HEADERS frame whose header block
      converted to `response`: the response start, its headers, a flush. */
  function HeadersEvents(response: FullHttpResponse): seq<CtxEvent> {
    [ Passed(HttpResponse(response.protocolVersion, response.status)),
      Passed(HttpHeaders(response.headers)),
      Flushed ]
  }

  /** What the adapter itself passes on for a DATA frame: one content object,
      the last one exactly when the frame ends the stream, and a flush. */
  function DataEvents(frame: DataFrame): seq<CtxEvent> {
    [Passed(HttpContent(frame.data, frame.endOfStream)), Flushed]
  }

  /** The adapter's own events for a frame on which the superclass returned;
      a header block that does not convert gives none. */
  function OwnEvents(toHttpResponse: Conversion, frame: Frame): seq<CtxEvent> {
    match frame
    case HeadersOf(f) =>
      (match toHttpResponse(f.streamId, f.headers)
       case Success(response) => HeadersEvents(response)
       case Failure(_) => [])
    case DataOf(f) => DataEvents(f)
  }

  // ---------------------------------------------------------------------
  // Reading the event log
  // ---------------------------------------------------------------------

  /** The objects passed on, flushes left out. */
  function Messages(events: seq<CtxEvent>): seq<HttpObject> {
    if events == [] then []
    else (if events[0].Passed? then [events[0].msg] else []) + Messages(events[1..])
  }

  /** The bytes of the content objects, concatenated in order. */
  function ContentBytes(msgs: seq<HttpObject>): seq<byte> {
    if msgs == [] then []
    else Content(msgs[0]) + ContentBytes(msgs[1..])
  }

  /** How many last content objects are passed on. */
  function LastCount(msgs: seq<HttpObject>): nat {
    if msgs == [] then 0
    else (if IsLast(msgs[0]) then 1 else 0) + LastCount(msgs[1..])
  }

  /** How many response starts are passed on. */
  function ResponseCount(msgs: seq<HttpObject>): nat {
    if msgs == [] then 0
    else (if StartsResponse(msgs[0]) then 1 else 0) + ResponseCount(msgs[1..])
  }

  /** The bodies of whole messages, concatenated in order. */
  function WholeContent(passedOn: seq<FullHttpResponse>): seq<byte> {
    if passedOn == [] then []
    else passedOn[0].content + WholeContent(passedOn[1..])
  }

  /** How many HEADERS frames carry a header block that converts. */
  function ConvertedHeadersCount(toHttpResponse: Conversion, frames: seq<Frame>): nat {
    if frames == [] then 0
    else
      (if frames[0].HeadersOf? && toHttpResponse(frames[0].headersFrame.streamId, frames[0].headersFrame.headers).Success?
       then 1 else 0)
      + ConvertedHeadersCount(toHttpResponse, frames[1..])
  }

  /** The payloads of the DATA frames, concatenated in order. */
  function DataPayload(frames: seq<Frame>): seq<byte> {
    if frames == [] then []
    else (if frames[0].DataOf? then frames[0].dataFrame.data else []) + DataPayload(frames[1..])
  }

  /** How many DATA frames end their stream. */
  function EndOfStreamCount(frames: seq<Frame>): nat {
    if frames == [] then 0
    else
      (if frames[0].DataOf? && frames[0].dataFrame.endOfStream then 1 else 0) + EndOfStreamCount(frames[1..])
  }

  lemma {:induction false} MessagesAppend(a: seq<CtxEvent>, b: seq<CtxEvent>)
    ensures Messages(a + b) == Messages(a) + Messages(b)
  {
    if a == [] {
      assert a + b == b;
    } else {
      assert (a + b)[0] == a[0];
      assert (a + b)[1..] == a[1..] + b;
      MessagesAppend(a[1..], b);
    }
  }

  lemma {:induction false} ContentBytesAppend(a: seq<HttpObject>, b: seq<HttpObject>)
    ensures ContentBytes(a + b) == ContentBytes(a) + ContentBytes(b)
  {
    if a == [] {
      assert a + b == b;
    } else {
      assert (a + b)[1..] == a[1..] + b;
      ContentBytesAppend(a[1..], b);
    }
  }

  lemma {:induction false} LastCountAppend(a: seq<HttpObject>, b: seq<HttpObject>)
    ensures LastCount(a + b) == LastCount(a) + LastCount(b)
  {
    if a == [] {
      assert a + b == b;
    } else {
      assert (a + b)[1..] == a[1..] + b;
      LastCountAppend(a[1..], b);
    }
  }

  lemma {:induction false} ResponseCountAppend(a: seq<HttpObject>, b: seq<HttpObject>)
    ensures ResponseCount(a + b) == ResponseCount(a) + ResponseCount(b)
  {
    if a == [] {
      assert a + b == b;
    } else {
      assert (a + b)[1..] == a[1..] + b;
      ResponseCountAppend(a[1..], b);
    }
  }

  lemma ResponseCountSingle(m: HttpObject)
    ensures ResponseCount([m]) == if StartsResponse(m) then 1 else 0
  {
    assert [m][1..] == [];
  }

  lemma MessagesSingle(e: CtxEvent)
    ensures Messages([e]) == if e.Passed? then [e.msg] else []
  {
    assert [e][1..] == [];
  }

  lemma ContentBytesSingle(m: HttpObject)
    ensures ContentBytes([m]) == Content(m)
  {
    assert [m][1..] == [];
  }

  lemma LastCountSingle(m: HttpObject)
    ensures LastCount([m]) == if IsLast(m) then 1 else 0
  {
    assert [m][1..] == [];
  }

  /** A HEADERS frame whose header block converts passes on exactly two
      objects, the response start (version and status of the conversion)
      and then the converted headers, and ends with a flush. */
  lemma HeadersFrameEvents(toHttpResponse: Conversion, f: HeadersFrame, response: FullHttpResponse)
    requires toHttpResponse(f.streamId, f.headers) == Success(response)
    ensures Messages(OwnEvents(toHttpResponse, HeadersOf(f)))
      == [HttpResponse(response.protocolVersion, response.status), HttpHeaders(response.headers)]
    ensures OwnEvents(toHttpResponse, HeadersOf(f))[|OwnEvents(toHttpResponse, HeadersOf(f))| - 1] == Flushed
    ensures ContentBytes(Messages(OwnEvents(toHttpResponse, HeadersOf(f)))) == []
    ensures LastCount(Messages(OwnEvents(toHttpResponse, HeadersOf(f)))) == 0
    ensures ResponseCount(Messages(OwnEvents(toHttpResponse, HeadersOf(f)))) == 1
  {
    var evs := HeadersEvents(response);
    assert evs == [evs[0]] + [evs[1]] + [evs[2]];
    MessagesAppend([evs[0]] + [evs[1]], [evs[2]]);
    MessagesAppend([evs[0]], [evs[1]]);
    MessagesSingle(evs[0]);
    MessagesSingle(evs[1]);
    MessagesSingle(evs[2]);
    var msgs := Messages(evs);
    assert msgs == [msgs[0]] + [msgs[1]];
    ContentBytesAppend([msgs[0]], [msgs[1]]);
    ContentBytesSingle(msgs[0]);
    ContentBytesSingle(msgs[1]);
    LastCountAppend([msgs[0]], [msgs[1]]);
    LastCountSingle(msgs[0]);
    LastCountSingle(msgs[1]);
    ResponseCountAppend([msgs[0]], [msgs[1]]);
    ResponseCountSingle(msgs[0]);
    ResponseCountSingle(msgs[1]);
  }

  /** The priority fields play no part in what the adapter passes on: with
      or without them, the same stream and header block give the same events. */
  lemma PriorityIrrelevant(toHttpResponse: Conversion, f: HeadersFrame, priority: Option<Priority>)
    ensures OwnEvents(toHttpResponse, HeadersOf(f.(priority := priority)))
      == OwnEvents(toHttpResponse, HeadersOf(f))
  {
  }

  /** A DATA frame passes on exactly one object, a content object with the
      frame's bytes, marked last exactly when the frame ends the stream. */
  lemma DataFrameEvents(toHttpResponse: Conversion, f: DataFrame)
    ensures Messages(OwnEvents(toHttpResponse, DataOf(f))) == [HttpContent(f.data, f.endOfStream)]
    ensures ContentBytes(Messages(OwnEvents(toHttpResponse, DataOf(f)))) == f.data
    ensures LastCount(Messages(OwnEvents(toHttpResponse, DataOf(f)))) == if f.endOfStream then 1 else 0
    ensures ResponseCount(Messages(OwnEvents(toHttpResponse, DataOf(f)))) == 0
  {
    var evs := DataEvents(f);
    assert evs == [evs[0]] + [evs[1]];
    MessagesAppend([evs[0]], [evs[1]]);
    MessagesSingle(evs[0]);
    MessagesSingle(evs[1]);
    var msgs := Messages(evs);
    ContentBytesSingle(msgs[0]);
    LastCountSingle(msgs[0]);
    ResponseCountSingle(msgs[0]);
  }

  lemma {:induction false} WholeContentAppend(a: seq<FullHttpResponse>, b: seq<FullHttpResponse>)
    ensures WholeContent(a + b) == WholeContent(a) + WholeContent(b)
  {
    if a == [] {
      assert a + b == b;
    } else {
      assert (a + b)[1..] == a[1..] + b;
      WholeContentAppend(a[1..], b);
    }
  }

  /** The three log readers distribute over a split of the log. */
  lemma LogAppend(a: seq<CtxEvent>, b: seq<CtxEvent>)
    ensures ContentBytes(Messages(a + b)) == ContentBytes(Messages(a)) + ContentBytes(Messages(b))
    ensures LastCount(Messages(a + b)) == LastCount(Messages(a)) + LastCount(Messages(b))
    ensures ResponseCount(Messages(a + b)) == ResponseCount(Messages(a)) + ResponseCount(Messages(b))
  {
    MessagesAppend(a, b);
    ContentBytesAppend(Messages(a), Messages(b));
    LastCountAppend(Messages(a), Messages(b));
    ResponseCountAppend(Messages(a), Messages(b));
  }

  /** The three frame readers distribute over a split of the frames. */
  lemma {:induction false} FramesAppend(toHttpResponse: Conversion, a: seq<Frame>, b: seq<Frame>)
    ensures DataPayload(a + b) == DataPayload(a) + DataPayload(b)
    ensures EndOfStreamCount(a + b) == EndOfStreamCount(a) + EndOfStreamCount(b)
    ensures ConvertedHeadersCount(toHttpResponse, a + b)
      == ConvertedHeadersCount(toHttpResponse, a) + ConvertedHeadersCount(toHttpResponse, b)
  {
    if a == [] {
      assert a + b == b;
    } else {
      assert (a + b)[1..] == a[1..] + b;
      FramesAppend(toHttpResponse, a[1..], b);
    }
  }

  /** Each whole message the superclass passes on is, by its type, one
      response start, one last content object and its whole body. */
  lemma {:induction false} SuperEventsCounts(passedOn: seq<FullHttpResponse>)
    ensures Messages(SuperEvents(passedOn)) == seq(|passedOn|, i requires 0 <= i < |passedOn| => FullResponse(passedOn[i]))
    ensures ContentBytes(Messages(SuperEvents(passedOn))) == WholeContent(passedOn)
    ensures LastCount(Messages(SuperEvents(passedOn))) == |passedOn|
    ensures ResponseCount(Messages(SuperEvents(passedOn))) == |passedOn|
  {
    if passedOn != [] {
      var whole := FullResponse(passedOn[0]);
      var rest := SuperEvents(passedOn[1..]);
      SuperEventsCounts(passedOn[1..]);
      MessagesAppend([Passed(whole)], rest);
      MessagesSingle(Passed(whole));
      ContentBytesAppend([whole], Messages(rest));
      ContentBytesSingle(whole);
      LastCountAppend([whole], Messages(rest));
      LastCountSingle(whole);
      ResponseCountAppend([whole], Messages(rest));
      ResponseCountSingle(whole);
    }
  }

  /** A log made of the superclass's whole messages followed by other events
      reads as the whole messages' counts plus the others'. */
  lemma SuperThenOwnCounts(passedOn: seq<FullHttpResponse>, own: seq<CtxEvent>)
    ensures ContentBytes(Messages(SuperEvents(passedOn) + own)) == WholeContent(passedOn) + ContentBytes(Messages(own))
    ensures LastCount(Messages(SuperEvents(passedOn) + own)) == |passedOn| + LastCount(Messages(own))
    ensures ResponseCount(Messages(SuperEvents(passedOn) + own)) == |passedOn| + ResponseCount(Messages(own))
  {
    SuperEventsCounts(passedOn);
    LogAppend(SuperEvents(passedOn), own);
  }

  // ---------------------------------------------------------------------
  // The adapter
  // ---------------------------------------------------------------------

  /** The effect of one HEADERS frame: the superclass's new state, everything
      passed on, and whether the call threw. */
  datatype HeadersEffect<S> = HeadersEffect(state: S, emitted: seq<CtxEvent>, outcome: Outcome<Http2Exception>)

  /** The effect of one DATA frame, with the processed-byte count returned. */
  datatype DataEffect<S> = DataEffect(state: S, emitted: seq<CtxEvent>, result: Result<int, Http2Exception>)

  /** A run of frames: the superclass's state after it, everything passed on
      at the context, the frames whose superclass call returned, and, split
      out of `emitted`, the adapter's own events and the whole messages the
      superclass passed on. */
  datatype Run<S> = Run(
    state: S, emitted: seq<CtxEvent>, accepted: seq<Frame>, own: seq<CtxEvent>, passedOn: seq<FullHttpResponse>)

  class DetailedInboundHttp2ToHttpAdapter<S> {
    const superclass: Superclass<S>
    const toHttpResponse: Conversion
    const maxContentLength: nat
    /** The superclass's state. */
    var state: S

    constructor (superclass: Superclass<S>, toHttpResponse: Conversion, initial: S)
      ensures this.superclass == superclass && this.toHttpResponse == toHttpResponse
      ensures maxContentLength == MaxContentLength && state == initial
    {
      this.superclass, this.toHttpResponse := superclass, toHttpResponse;
      maxContentLength := MaxContentLength;
      state := initial;
    }

    /** Superclass first; if it throws, nothing is passed on and its state is
        kept; if the conversion then throws, only what the superclass passed
        on remains; otherwise the adapter's own three events follow. */
    function OnHeadersReadEffect(st: S, frame: HeadersFrame): HeadersEffect<S> {
      match superclass.onHeadersRead(st, maxContentLength, frame)
      case Failure(e) => HeadersEffect(st, [], Fail(e))
      case Success(step) =>
        match toHttpResponse(frame.streamId, frame.headers)
        case Failure(e) => HeadersEffect(step.state, SuperEvents(step.passedOn), Fail(e))
        case Success(response) => HeadersEffect(step.state, SuperEvents(step.passedOn) + HeadersEvents(response), Pass)
    }

    /** Superclass first; if it throws, nothing is passed on; otherwise one
        content object and a flush, and the superclass's count is returned. */
    function OnDataReadEffect(st: S, frame: DataFrame): DataEffect<S> {
      match superclass.onDataRead(st, maxContentLength, frame)
      case Failure(e) => DataEffect(st, [], Failure(e))
      case Success(step) => DataEffect(step.state, SuperEvents(step.passedOn) + DataEvents(frame), Success(step.bytesProcessed))
    }

    /** On a returning superclass call, the effect is the superclass's events
        followed by the adapter's own, and the returned values are the
        superclass's. */
    lemma EffectIsSuperThenOwn(st: S, frame: Frame)
      ensures frame.HeadersOf? ==>
        match superclass.onHeadersRead(st, maxContentLength, frame.headersFrame)
        case Failure(e) => OnHeadersReadEffect(st, frame.headersFrame) == HeadersEffect(st, [], Fail(e))
        case Success(step) =>
          OnHeadersReadEffect(st, frame.headersFrame).emitted == SuperEvents(step.passedOn) + OwnEvents(toHttpResponse, frame)
          && OnHeadersReadEffect(st, frame.headersFrame).state == step.state
      ensures frame.DataOf? ==>
        match superclass.onDataRead(st, maxContentLength, frame.dataFrame)
        case Failure(e) => OnDataReadEffect(st, frame.dataFrame) == DataEffect(st, [], Failure(e))
        case Success(step) =>
          OnDataReadEffect(st, frame.dataFrame).emitted == SuperEvents(step.passedOn) + OwnEvents(toHttpResponse, frame)
          && OnDataReadEffect(st, frame.dataFrame).result == Success(step.bytesProcessed)
    {
    }

    /** One frame handed to the matching override. */
    function FrameStep(st: S, frame: Frame): Run<S> {
      match frame
      case HeadersOf(f) =>
        var effect := OnHeadersReadEffect(st, f);
        (match superclass.onHeadersRead(st, maxContentLength, f)
         case Success(step) => Run(effect.state, effect.emitted, [frame], OwnEvents(toHttpResponse, frame), step.passedOn)
         case Failure(_) => Run(effect.state, effect.emitted, [], [], []))
      case DataOf(f) =>
        var effect := OnDataReadEffect(st, f);
        (match superclass.onDataRead(st, maxContentLength, f)
         case Success(step) => Run(effect.state, effect.emitted, [frame], OwnEvents(toHttpResponse, frame), step.passedOn)
         case Failure(_) => Run(effect.state, effect.emitted, [], [], []))
    }

    /** Frames handed to the overrides one after another, each starting from
        the superclass state the previous one left; a frame whose superclass
        call throws is passed over and the run goes on. */
    function RunFrames(st: S, frames: seq<Frame>): Run<S> {
      if frames == [] then Run(st, [], [], [], [])
      else
        var first := FrameStep(st, frames[0]);
        var rest := RunFrames(first.state, frames[1..]);
        Run(rest.state, first.emitted + rest.emitted, first.accepted + rest.accepted,
            first.own + rest.own, first.passedOn + rest.passedOn)
    }

    /** For one frame: if the superclass throws, nothing is passed on and its
        state is kept. Otherwise the log is the superclass's whole messages
        followed by the adapter's own objects, and those carry the frame's
        DATA payload, one last marker when a DATA frame ends its stream, and
        one response start when a HEADERS frame's block converts. */
    lemma FrameStepContent(st: S, frame: Frame)
      ensures var step := FrameStep(st, frame);
        (step.accepted == [] || step.accepted == [frame])
        && (step.accepted == [] ==> step.emitted == [] && step.state == st && step.own == [] && step.passedOn == [])
        && step.emitted == SuperEvents(step.passedOn) + step.own
        && ContentBytes(Messages(step.own)) == DataPayload(step.accepted)
        && LastCount(Messages(step.own)) == EndOfStreamCount(step.accepted)
        && ResponseCount(Messages(step.own)) == ConvertedHeadersCount(toHttpResponse, step.accepted)
    {
      assert [frame][1..] == [];
      EffectIsSuperThenOwn(st, frame);
      match frame {
        case HeadersOf(f) =>
          if superclass.onHeadersRead(st, maxContentLength, f).Success? {
            match toHttpResponse(f.streamId, f.headers) {
              case Success(response) => HeadersFrameEvents(toHttpResponse, f, response);
              case Failure(_) =>
            }
          }
        case DataOf(f) =>
          DataFrameEvents(toHttpResponse, f);
      }
    }

    /** The adapter's own part of a run: its content is exactly the payloads
        of the DATA frames the superclass accepted, in arrival order; as many
        of its objects are last as those DATA frames end their stream; and
        every accepted HEADERS frame that converts, trailing ones included,
        starts one response. */
    lemma {:induction false} RunOwnContent(st: S, frames: seq<Frame>)
      ensures var run := RunFrames(st, frames);
        |run.accepted| <= |frames|
        && ContentBytes(Messages(run.own)) == DataPayload(run.accepted)
        && LastCount(Messages(run.own)) == EndOfStreamCount(run.accepted)
        && ResponseCount(Messages(run.own)) == ConvertedHeadersCount(toHttpResponse, run.accepted)
    {
      if frames != [] {
        var first := FrameStep(st, frames[0]);
        var rest := RunFrames(first.state, frames[1..]);
        FrameStepContent(st, frames[0]);
        RunOwnContent(first.state, frames[1..]);
        LogAppend(first.own, rest.own);
        FramesAppend(toHttpResponse, first.accepted, rest.accepted);
      }
    }

    /** The whole log of a run, as the next handler reads it: the last
        markers and the response starts are the adapter's own plus one per
        whole message the superclass passed on, and the content bytes are
        the accepted DATA payloads together with the whole messages' bodies. */
    lemma {:induction false} RunContent(st: S, frames: seq<Frame>)
      ensures var run := RunFrames(st, frames);
        multiset(ContentBytes(Messages(run.emitted)))
          == multiset(DataPayload(run.accepted)) + multiset(WholeContent(run.passedOn))
        && LastCount(Messages(run.emitted)) == EndOfStreamCount(run.accepted) + |run.passedOn|
        && ResponseCount(Messages(run.emitted)) == ConvertedHeadersCount(toHttpResponse, run.accepted) + |run.passedOn|
    {
      RunOwnContent(st, frames);
      RunSplitCounts(st, frames);
      RunSplitContent(st, frames);
    }

    /** A run's log has, on top of its own part's last markers and response
        starts, one of each per whole message the superclass passed on. */
    lemma {:induction false} RunSplitCounts(st: S, frames: seq<Frame>)
      ensures var run := RunFrames(st, frames);
        LastCount(Messages(run.emitted)) == |run.passedOn| + LastCount(Messages(run.own))
        && ResponseCount(Messages(run.emitted)) == |run.passedOn| + ResponseCount(Messages(run.own))
    {
      if frames != [] {
        var first := FrameStep(st, frames[0]);
        var rest := RunFrames(first.state, frames[1..]);
        FrameStepContent(st, frames[0]);
        RunSplitCounts(first.state, frames[1..]);
        SuperThenOwnCounts(first.passedOn, first.own);
        LogAppend(first.emitted, rest.emitted);
        LogAppend(first.own, rest.own);
      }
    }

    /** A run's log carries the bytes of its own part and of the whole
        messages the superclass passed on, and no others. */
    lemma {:induction false} RunSplitContent(st: S, frames: seq<Frame>)
      ensures var run := RunFrames(st, frames);
        multiset(ContentBytes(Messages(run.emitted)))
          == multiset(WholeContent(run.passedOn)) + multiset(ContentBytes(Messages(run.own)))
    {
      if frames != [] {
        var first := FrameStep(st, frames[0]);
        var rest := RunFrames(first.state, frames[1..]);
        FrameStepContent(st, frames[0]);
        RunSplitContent(first.state, frames[1..]);
        SuperThenOwnCounts(first.passedOn, first.own);
        LogAppend(first.emitted, rest.emitted);
        LogAppend(first.own, rest.own);
        WholeContentAppend(first.passedOn, rest.passedOn);
      }
    }

    method SuperOnHeadersRead(ctx: ChannelHandlerContext, frame: HeadersFrame)
      returns (r: Outcome<Http2Exception>)
      modifies this, ctx
      ensures match superclass.onHeadersRead(old(state), maxContentLength, frame)
        case Failure(e) => r == Fail(e) && state == old(state) && ctx.events == old(ctx.events)
        case Success(step) => r == Pass && state == step.state && ctx.events == old(ctx.events) + SuperEvents(step.passedOn)
    {
      var res := superclass.onHeadersRead(state, maxContentLength, frame);
      match res
      case Failure(e) =>
        r := Fail(e);
      case Success(step) =>
        ctx.Append(SuperEvents(step.passedOn));
        state := step.state;
        r := Pass;
    }

    /** onHeadersRead(ctx, streamId, headers, padding, endOfStream). */
    method OnHeadersRead(ctx: ChannelHandlerContext, streamId: int, headers: Http2Headers,
                         padding: int, endOfStream: bool)
      returns (r: Outcome<Http2Exception>)
      modifies this, ctx
      ensures var effect := OnHeadersReadEffect(old(state), HeadersFrame(streamId, headers, None, padding, endOfStream));
        state == effect.state && ctx.events == old(ctx.events) + effect.emitted && r == effect.outcome
    {
      r := HandleHeaders(ctx, HeadersFrame(streamId, headers, None, padding, endOfStream));
    }

    /** onHeadersRead(ctx, streamId, headers, streamDependency, weight,
        exclusive, padding, endOfStream): the same, the priority fields going
        to the superclass only. */
    method OnHeadersReadWithPriority(ctx: ChannelHandlerContext, streamId: int, headers: Http2Headers,
                                     streamDependency: int, weight: int, exclusive: bool,
                                     padding: int, endOfStream: bool)
      returns (r: Outcome<Http2Exception>)
      modifies this, ctx
      ensures var frame := HeadersFrame(streamId, headers, Some(Priority(streamDependency, weight, exclusive)), padding, endOfStream);
        var effect := OnHeadersReadEffect(old(state), frame);
        state == effect.state && ctx.events == old(ctx.events) + effect.emitted && r == effect.outcome
    {
      r := HandleHeaders(ctx, HeadersFrame(streamId, headers, Some(Priority(streamDependency, weight, exclusive)), padding, endOfStream));
    }

    /** The body the two overrides share. */
    method HandleHeaders(ctx: ChannelHandlerContext, frame: HeadersFrame) returns (r: Outcome<Http2Exception>)
      modifies this, ctx
      ensures var effect := OnHeadersReadEffect(old(state), frame);
        state == effect.state && ctx.events == old(ctx.events) + effect.emitted && r == effect.outcome
    {
      r := SuperOnHeadersRead(ctx, frame);
      if r.Fail? {
        return;
      }
      var converted := toHttpResponse(frame.streamId, frame.headers);
      if converted.Failure? {
        return Fail(converted.error);
      }
      var response := converted.value;
      ctx.FireChannelRead(HttpResponse(response.protocolVersion, response.status));
      ctx.FireChannelRead(HttpHeaders(response.headers));
      ctx.Flush();
    }

    /** onDataRead(ctx, streamId, data, padding, endOfStream). */
    method OnDataRead(ctx: ChannelHandlerContext, streamId: int, data: seq<byte>, padding: int, endOfStream: bool)
      returns (r: Result<int, Http2Exception>)
      modifies this, ctx
      ensures var effect := OnDataReadEffect(old(state), DataFrame(streamId, data, padding, endOfStream));
        state == effect.state && ctx.events == old(ctx.events) + effect.emitted && r == effect.result
    {
      var frame := DataFrame(streamId, data, padding, endOfStream);
      var res := superclass.onDataRead(state, maxContentLength, frame);
      if res.Failure? {
        return Failure(res.error);
      }
      ctx.Append(SuperEvents(res.value.passedOn));
      state := res.value.state;
      ctx.FireChannelRead(HttpContent(data, endOfStream));
      ctx.Flush();
      r := Success(res.value.bytesProcessed);
    }
  }
}
