/** LoggingFilter.java: a RestAssured filter that logs the request, passes
    it on down the filter chain, logs the response and returns it unchanged.
    The SLF4J logger and the rest of the chain write to one shared trace of
    events, so the order of logging and forwarding is observable. */
module LoggingFilter {
  import opened Wrappers
  import opened Http

  /** What the filter reads from the request it is given. */
  datatype FilterableRequest = FilterableRequest(
    verb: string,
    uri: string,
    headers: seq<Header>,
    body: Option<string>)

  /** The response specification is handed on untouched. */
  datatype ResponseSpec = ResponseSpec(handle: nat)

  /** One `logger.info` call: which format it uses and its arguments. */
  datatype LogLine =
    | RequestBanner
    | RequestLine(verb: string, uri: string)
    | RequestHeaders(requestHeaders: seq<Header>)
    | RequestBody(requestBody: string)
    | ResponseBanner
    | StatusCodeLine(statusCode: int)
    | ResponseHeaders(responseHeaders: seq<Header>)
    | ResponseBody(responseBody: string)
    | ResponseTimeLine(time: nat)

  predicate IsRequestLine(line: LogLine) {
    line.RequestBanner? || line.RequestLine? || line.RequestHeaders? || line.RequestBody?
  }

  datatype Event =
    | Logged(line: LogLine)
    | Forwarded(request: FilterableRequest, spec: ResponseSpec)

  /** The observable history: log output interleaved with forwarded requests. */
  class Trace {
    var events: seq<Event>

    constructor ()
      ensures events == []
    {
      events := [];
    }
  }

  /** The SLF4J logger, writing into a trace. */
  class Logger {
    const sink: Trace

    constructor (sink: Trace)
      ensures this.sink == sink
    {
      this.sink := sink;
    }

    method Info(line: LogLine)
      modifies sink
      ensures sink.events == old(sink.events) + [Logged(line)]
    {
      sink.events := sink.events + [Logged(line)];
    }
  }

  /** The exception the rest of the chain throws when the exchange fails
      (a connection refused, a timeout, ...). */
  datatype TransportError = TransportError(description: string)

  /** The rest of the filter chain: it records that the request reached it
      and answers with whatever the downstream chain answers, a response or
      an exception. */
  class FilterContext {
    const trace: Trace
    const downstream: (FilterableRequest, ResponseSpec) -> Result<Response, TransportError>

    constructor (trace: Trace, downstream: (FilterableRequest, ResponseSpec) -> Result<Response, TransportError>)
      ensures this.trace == trace && this.downstream == downstream
    {
      this.trace := trace;
      this.downstream := downstream;
    }

    method Next(request: FilterableRequest, spec: ResponseSpec) returns (outcome: Result<Response, TransportError>)
      modifies trace
      ensures outcome == downstream(request, spec)
      ensures trace.events == old(trace.events) + [Forwarded(request, spec)]
    {
      trace.events := trace.events + [Forwarded(request, spec)];
      outcome := downstream(request, spec);
    }
  }

  /** The lines logged before forwarding; the body line only when there is a body. */
  function RequestEvents(request: FilterableRequest): seq<Event> {
    [Logged(RequestBanner), Logged(RequestLine(request.verb, request.uri)), Logged(RequestHeaders(request.headers))]
    + (if request.body.Some? then [Logged(RequestBody(request.body.value))] else [])
  }

  /** The lines logged after the response came back. */
  function ResponseEvents(response: Response): seq<Event> {
    [Logged(ResponseBanner), Logged(StatusCodeLine(response.statusCode)),
     Logged(ResponseHeaders(response.headers)), Logged(ResponseBody(response.body)),
     Logged(ResponseTimeLine(response.time))]
  }

  /** What a call of the filter adds when the chain throws: the request
      lines and the forward, after which the exception leaves the filter. */
  function Aborted(request: FilterableRequest, spec: ResponseSpec): seq<Event> {
    RequestEvents(request) + [Forwarded(request, spec)]
  }

  /** Everything one call of the filter adds to the trace when the chain
      answers with a response. */
  function Exchange(request: FilterableRequest, spec: ResponseSpec, response: Response): seq<Event> {
    Aborted(request, spec) + ResponseEvents(response)
  }

  class LoggingFilter {
    const logger: Logger

    constructor (logger: Logger)
      ensures this.logger == logger
    {
      this.logger := logger;
    }

    /** `filter`: log, forward, log, and return the downstream response as
        is. When the chain throws, nothing catches it: the exception is
        passed on unchanged and no response line is logged. */
    method Filter(requestSpec: FilterableRequest, responseSpec: ResponseSpec, ctx: FilterContext)
      returns (outcome: Result<Response, TransportError>)
      requires ctx.trace == logger.sink
      modifies logger.sink
      ensures outcome == ctx.downstream(requestSpec, responseSpec)
      ensures outcome.Ok? ==>
                logger.sink.events == old(logger.sink.events) + Exchange(requestSpec, responseSpec, outcome.value)
      ensures outcome.Err? ==>
                logger.sink.events == old(logger.sink.events) + Aborted(requestSpec, responseSpec)
    {
      LogRequest(requestSpec);
      outcome := ctx.Next(requestSpec, responseSpec);
      if outcome.Ok? {
        LogResponse(outcome.value);
      }
    }

    /** The lines `filter` logs before calling the chain. */
    method LogRequest(requestSpec: FilterableRequest)
      modifies logger.sink
      ensures logger.sink.events == old(logger.sink.events) + RequestEvents(requestSpec)
    {
      logger.Info(RequestBanner);
      logger.Info(RequestLine(requestSpec.verb, requestSpec.uri));
      logger.Info(RequestHeaders(requestSpec.headers));
      if requestSpec.body.Some? {
        logger.Info(RequestBody(requestSpec.body.value));
      }
    }

    /** The lines `filter` logs after the chain answered. */
    method LogResponse(response: Response)
      modifies logger.sink
      ensures logger.sink.events == old(logger.sink.events) + ResponseEvents(response)
    {
      logger.Info(ResponseBanner);
      logger.Info(StatusCodeLine(response.statusCode));
      logger.Info(ResponseHeaders(response.headers));
      logger.Info(ResponseBody(response.body));
      logger.Info(ResponseTimeLine(response.time));
    }
  }

  /** The request is forwarded exactly once, untouched, right after the
      request lines; every other event is a log line. */
  lemma ForwardedOnce(request: FilterableRequest, spec: ResponseSpec, response: Response)
    ensures var e := Exchange(request, spec, response);
      && |RequestEvents(request)| < |e|
      && e[|RequestEvents(request)|] == Forwarded(request, spec)
      && forall k :: 0 <= k < |e| && k != |RequestEvents(request)| ==> e[k].Logged?
  {
  }

  /** Request lines are logged before forwarding and response lines after. */
  lemma RequestBeforeResponse(request: FilterableRequest, spec: ResponseSpec, response: Response)
    ensures var e := Exchange(request, spec, response);
      var f := |RequestEvents(request)|;
      && (forall k :: 0 <= k < f ==> e[k].Logged? && IsRequestLine(e[k].line))
      && (forall k :: f < k < |e| ==> e[k].Logged? && !IsRequestLine(e[k].line))
  {
  }

  /** A body line is logged iff the request has a body, and then it is that body. */
  lemma BodyLoggedIffPresent(request: FilterableRequest, spec: ResponseSpec, response: Response, body: string)
    ensures Logged(RequestBody(body)) in Exchange(request, spec, response) <==> request.body == Some(body)
  {
    var e := Exchange(request, spec, response);
    if request.body == Some(body) {
      assert e[3] == Logged(RequestBody(body));
    }
  }

  /** How many of the events are log lines. */
  function CountLogged(events: seq<Event>): (n: nat)
    ensures n <= |events|
  {
    if events == [] then 0
    else CountLogged(events[..|events| - 1]) + (if events[|events| - 1].Logged? then 1 else 0)
  }

  lemma {:induction false} CountLoggedAppend(a: seq<Event>, b: seq<Event>)
    ensures CountLogged(a + b) == CountLogged(a) + CountLogged(b)
    decreases |b|
  {
    if b == [] {
      assert a + b == a;
    } else {
      assert (a + b)[..|a + b| - 1] == a + b[..|b| - 1];
      CountLoggedAppend(a, b[..|b| - 1]);
    }
  }

  lemma {:induction false} CountAllLogged(events: seq<Event>)
    requires forall k :: 0 <= k < |events| ==> events[k].Logged?
    ensures CountLogged(events) == |events|
    decreases |events|
  {
    if events != [] {
      CountAllLogged(events[..|events| - 1]);
    }
  }

  /** Nine log lines with a request body, eight without, plus the one
      forwarded request. */
  lemma LineCount(request: FilterableRequest, spec: ResponseSpec, response: Response)
    ensures CountLogged(Exchange(request, spec, response)) == (if request.body.Some? then 9 else 8)
    ensures |Exchange(request, spec, response)| == CountLogged(Exchange(request, spec, response)) + 1
  {
    var req := RequestEvents(request);
    var resp := ResponseEvents(response);
    CountLoggedAppend(req + [Forwarded(request, spec)], resp);
    CountLoggedAppend(req, [Forwarded(request, spec)]);
    assert CountLogged([Forwarded(request, spec)]) == 0 by {
      assert [Forwarded(request, spec)][..0] == [];
    }
    var head := [Logged(RequestBanner), Logged(RequestLine(request.verb, request.uri)), Logged(RequestHeaders(request.headers))];
    var tail: seq<Event> := if request.body.Some? then [Logged(RequestBody(request.body.value))] else [];
    assert req == head + tail;
    CountLoggedAppend(head, tail);
    CountAllLogged(head);
    CountAllLogged(tail);
    CountAllLogged(resp);
  }

  /** The lines appear in the order the filter logs them: banner, method
      and URI, headers and the optional body before forwarding; banner,
      status code, headers, body and time of the returned response after. */
  lemma LinesInOrder(request: FilterableRequest, spec: ResponseSpec, response: Response)
    ensures var e := Exchange(request, spec, response);
      var f := if request.body.Some? then 4 else 3;
      && |e| == f + 6
      && e[0] == Logged(RequestBanner)
      && e[1] == Logged(RequestLine(request.verb, request.uri))
      && e[2] == Logged(RequestHeaders(request.headers))
      && (request.body.Some? ==> e[3] == Logged(RequestBody(request.body.value)))
      && e[f] == Forwarded(request, spec)
      && e[f + 1] == Logged(ResponseBanner)
      && e[f + 2] == Logged(StatusCodeLine(response.statusCode))
      && e[f + 3] == Logged(ResponseHeaders(response.headers))
      && e[f + 4] == Logged(ResponseBody(response.body))
      && e[f + 5] == Logged(ResponseTimeLine(response.time))
  {
  }

  /** When the chain throws, only the request lines were logged: three or
      four of them, then the forward, and no response line. A completed
      exchange extends exactly this prefix. */
  lemma AbortedLogsRequestOnly(request: FilterableRequest, spec: ResponseSpec, response: Response)
    ensures CountLogged(Aborted(request, spec)) == (if request.body.Some? then 4 else 3)
    ensures var a := Aborted(request, spec);
      forall k :: 0 <= k < |a| - 1 ==> a[k].Logged? && IsRequestLine(a[k].line)
    ensures Aborted(request, spec)[|Aborted(request, spec)| - 1] == Forwarded(request, spec)
    ensures Exchange(request, spec, response)[..|Aborted(request, spec)|] == Aborted(request, spec)
  {
    var req := RequestEvents(request);
    CountLoggedAppend(req, [Forwarded(request, spec)]);
    assert CountLogged([Forwarded(request, spec)]) == 0 by {
      assert [Forwarded(request, spec)][..0] == [];
    }
    CountAllLogged(req);
  }
}
