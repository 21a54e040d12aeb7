/** Stage 1 (service1): the ingress. A POST to /send-message builds the work
    item, stamps its start and step-1 milestones, counts the request and hands
    the item to queue-step-1. */
module Service1 {
  import opened Pipeline
  import opened Carrier
  import opened Transport

  const QueueUrl := "https://sqs.us-east-1.amazonaws.com/025775160945/service-queue-step1"

  const InitialData := "Initial data from service1"
  const CorrelationHeader := "X-Correlation-ID"
  const InjectErrorHeader := "X-Inject-Error"

  const StatusOk := 200
  const StatusMethodNotAllowed := 405
  const StatusInternalServerError := 500

  const Step1Errors := Metric("business.pipeline.errors.step1", ["service:service1"])
  const RequestsTotal := Metric("sli.requests.total", ["service:service1", "endpoint:/send-message"])
  const RequestsSuccess := Metric("sli.requests.success", ["service:service1", "endpoint:/send-message"])
  const InvalidDataRequests :=
    Metric("sli.requests.error", ["service:service1", "endpoint:/send-message", "error_type:invalid_data"])
  const SendFailureRequests :=
    Metric("sli.requests.error", ["service:service1", "endpoint:/send-message", "error_type:sqs_send_failure"])
  const Under50ms := Metric("sli.latency.under_50ms", ["service:service1"])
  const ResponseTime := Metric("sli.response_time", ["service:service1", "endpoint:/send-message"])
  const Step1Duration := Metric("business.pipeline.step1.duration", ["service:service1"])
  const MessagesStep1 := Metric("business.pipeline.messages.step1", ["service:service1"])
  const SendErrors := Metric("business.pipeline.errors.sqs.send", ["service:service1"])
  const UnknownErrors := Metric("business.pipeline.errors.unknown", ["service:service1"])

  /** An HTTP request: its method and its headers, each read by a plain map
      lookup of the name as written. */
  datatype Request = Request(httpMethod: string, headers: map<string, string>)

  /** Header.Get, without its canonicalisation of the name: the value, or ""
      when the header is absent. */
  function Header(r: Request, name: string): string {
    if name in r.headers then r.headers[name] else ""
  }

  /** Error injection is requested by the exact header value "true". */
  predicate InjectError(r: Request) {
    Header(r, InjectErrorHeader) == "true"
  }

  /** What the handling of one request sees of the world outside it: the clock
      when the handler starts, when StartTime is stamped, after the simulated
      work and when Step1Complete is stamped; the id uuid.New would give; the
      carrier tracer.Inject fills; how the marshal and send end; the receipt
      handle the queued message gets. */
  datatype Env = Env(
    start: Nanos,
    startStamp: Nanos,
    workDone: Nanos,
    step1Stamp: Nanos,
    generatedId: string,
    carrier: TextMap,
    outcome: SendOutcome,
    queuedHandle: string)

  /** The step-1 duration, time.Since(startTime) taken once the work is done. */
  function Elapsed(env: Env): Nanos {
    Since(env.workDone, env.start)
  }

  /** The errors sendToService2 returns. Both wrap their cause with %w, so both
      are *fmt.wrapError values. */
  datatype SendFailure =
    | MarshalFailure
    | QueueSendFailure(correlationId: string, queueUrl: string)

  /** The error sendToService2 returns for a send outcome, if any. */
  function FailureOf(outcome: SendOutcome, correlationId: string): (err: Option<SendFailure>)
    ensures err == None <==> outcome == SendOk
  {
    match outcome
    case SendOk => None
    case MarshalError => Some(MarshalFailure)
    case SendError => Some(QueueSendFailure(correlationId, QueueUrl))
  }

  /** fmt.Sprintf("%T", err) of a returned error: both are fmt.Errorf values wrapping a cause with %w. */
  function TypeName(err: SendFailure): string {
    "*fmt.wrapError"
  }

  /** The counter the handler's error classification picks. */
  function ErrorCounter(err: SendFailure): Metric {
    if TypeName(err) == "*fmt.wrapError" then SendErrors else UnknownErrors
  }

  datatype ResponseBody =
    | Text(text: string)
    | Started(message: string, correlationId: string, step: int, durationMs: int)

  datatype Response = Response(status: int, body: ResponseBody)

  /** Duration.Milliseconds: the duration in whole milliseconds, truncated toward zero. */
  function Milliseconds(d: Nanos): (ms: int)
    ensures d >= 0 ==> ms >= 0 && ms * Millisecond <= d < (ms + 1) * Millisecond
    ensures d < 0 ==> ms <= 0 && (ms - 1) * Millisecond < d <= ms * Millisecond
  {
    if d >= 0 then d / Millisecond else -((-d) / Millisecond)
  }

  /** The work item stage 1 hands on. */
  function InitialMessage(correlationId: string, injectError: bool, startStamp: Nanos, step1Stamp: Nanos)
    : (m: PipelineMessage)
    ensures m.correlationId == correlationId && m.data == InitialData
    ensures m.pipeline == Milestones(Some(startStamp), Some(step1Stamp), None, 1)
    ensures m.errorType == InvalidData <==> injectError
    ensures !injectError ==> m.errorType == ""
  {
    PipelineMessage(correlationId, InitialData, Milestones(Some(startStamp), Some(step1Stamp), None, 1),
                    if injectError then InvalidData else "")
  }

  /** The counting pass after the simulated work. */
  function CountingPass(injectError: bool, d: Nanos): seq<Stat> {
    [CounterIncr(RequestsTotal)]
    + [if injectError then CounterIncr(InvalidDataRequests) else CounterIncr(RequestsSuccess)]
    + (if d <= 50 * Millisecond then [CounterIncr(Under50ms)] else [])
    + [TimerSample(ResponseTime, d), TimerSample(Step1Duration, d), CounterIncr(MessagesStep1)]
  }

  /** The counters of a failed send, with the error classified by its type. */
  function FailureCounters(err: SendFailure): seq<Stat> {
    [CounterIncr(RequestsTotal), CounterIncr(SendFailureRequests), CounterIncr(ErrorCounter(err))]
  }

  /** The statsd calls of a POST: the step-1 error counter on injection, the
      counting pass, and the failure counters when the send returns an error. */
  function RequestStats(injectError: bool, d: Nanos, failure: Option<SendFailure>): seq<Stat> {
    match failure
    case None => Counted(injectError, d)
    case Some(err) => Counted(injectError, d) + FailureCounters(err)
  }

  /** The calls made whatever the send does. */
  function Counted(injectError: bool, d: Nanos): seq<Stat> {
    (if injectError then [CounterIncr(Step1Errors)] else []) + CountingPass(injectError, d)
  }

  datatype Outcome = Outcome(response: Response, sent: seq<QueueMessage>, stats: seq<Stat>)

  /** sendMessageHandler on one request. */
  function HandleSendMessage(r: Request, env: Env): (o: Outcome)
    // anything but POST is refused before any work
    ensures r.httpMethod != "POST" <==> o.response.status == StatusMethodNotAllowed
    ensures r.httpMethod != "POST" ==> o.sent == [] && o.stats == []
    // a POST is answered 200 exactly when the send succeeds, and 500 otherwise
    ensures r.httpMethod == "POST" ==> (o.response.status == StatusOk <==> env.outcome == SendOk)
    ensures r.httpMethod == "POST" && env.outcome != SendOk ==> o.response.status == StatusInternalServerError
    // at most one message is queued, and only on a successful send
    ensures |o.sent| == (if r.httpMethod == "POST" && env.outcome == SendOk then 1 else 0)
    ensures o.sent != [] ==>
      var id := CorrelationOf(Header(r, CorrelationHeader), env.generatedId);
      && o.sent[0] == QueueMessage(env.queuedHandle, Json(InitialMessage(id, InjectError(r), env.startStamp, env.step1Stamp)),
                                   OutgoingAttributes(id, env.carrier))
      && o.response.body == Started("Pipeline started - Step1 completed", id, 1, Milliseconds(Elapsed(env)))
  {
    if r.httpMethod != "POST" then
      Outcome(Response(StatusMethodNotAllowed, Text("Method not allowed\n")), [], [])
    else
      var correlationId := CorrelationOf(Header(r, CorrelationHeader), env.generatedId);
      var injectError := InjectError(r);
      var message := InitialMessage(correlationId, injectError, env.startStamp, env.step1Stamp);
      var d := Elapsed(env);
      var stats := RequestStats(injectError, d, FailureOf(env.outcome, correlationId));
      if env.outcome == SendOk then
        Outcome(Response(StatusOk, Started("Pipeline started - Step1 completed", correlationId, 1, Milliseconds(d))),
                [QueueMessage(env.queuedHandle, Json(message), OutgoingAttributes(correlationId, env.carrier))],
                stats)
      else
        Outcome(Response(StatusInternalServerError,
                         Text("Internal server error: failed to process pipeline message\n")),
                [],
                stats)
  }

  /** The id an accepted request is known by is never empty: the header when set,
      otherwise the generated id. */
  lemma CorrelationIdNeverEmpty(r: Request, env: Env)
    requires env.generatedId != ""
    requires r.httpMethod == "POST" && env.outcome == SendOk
    ensures var o := HandleSendMessage(r, env);
      && o.response.body.correlationId != ""
      && (Header(r, CorrelationHeader) != "" ==> o.response.body.correlationId == Header(r, CorrelationHeader))
      && (Header(r, CorrelationHeader) == "" ==> o.response.body.correlationId == env.generatedId)
      && o.sent[0].body.message.correlationId == o.response.body.correlationId
  {
  }

  /** The queued item carries `invalid_data` exactly when X-Inject-Error is "true". */
  lemma ErrorTagIffInjected(r: Request, env: Env)
    requires r.httpMethod == "POST" && env.outcome == SendOk
    ensures var m := HandleSendMessage(r, env).sent[0].body.message;
      && (m.errorType == InvalidData <==> Header(r, InjectErrorHeader) == "true")
      && (m.errorType == InvalidData || m.errorType == "")
  {
  }

  /** The statsd calls of a POST are those RequestStats lists. */
  lemma StatsOfPost(r: Request, env: Env)
    requires r.httpMethod == "POST"
    ensures HandleSendMessage(r, env).stats
         == RequestStats(InjectError(r), Elapsed(env),
                         FailureOf(env.outcome, CorrelationOf(Header(r, CorrelationHeader), env.generatedId)))
  {
  }

  /** The first counting pass of a POST counts exactly one of success and
      invalid-data error, chosen by X-Inject-Error, and the step-1 error counter
      only on injection; a refused request counts none of them. */
  lemma OutcomeCounterByInjection(r: Request, env: Env)
    ensures var stats := HandleSendMessage(r, env).stats;
      && (CounterIncr(RequestsSuccess) in stats <==> r.httpMethod == "POST" && !InjectError(r))
      && (CounterIncr(InvalidDataRequests) in stats <==> r.httpMethod == "POST" && InjectError(r))
      && (CounterIncr(Step1Errors) in stats <==> r.httpMethod == "POST" && InjectError(r))
    ensures var stats := HandleSendMessage(r, env).stats;
      && Incrs(stats, RequestsSuccess) == (if r.httpMethod == "POST" && !InjectError(r) then 1 else 0)
      && Incrs(stats, InvalidDataRequests) == (if r.httpMethod == "POST" && InjectError(r) then 1 else 0)
      && Incrs(stats, Step1Errors) == (if r.httpMethod == "POST" && InjectError(r) then 1 else 0)
  {
    if r.httpMethod == "POST" {
      StatsOfPost(r, env);
      var cid := CorrelationOf(Header(r, CorrelationHeader), env.generatedId);
      StatsByInjection(InjectError(r), Elapsed(env), FailureOf(env.outcome, cid));
      CountsByInjection(InjectError(r), Elapsed(env), FailureOf(env.outcome, cid));
    } else {
      assert HandleSendMessage(r, env).stats == [];
    }
  }

  /** `sli.latency.under_50ms` is counted exactly for a POST whose step took at most 50 ms. */
  lemma Under50msIffFast(r: Request, env: Env)
    ensures CounterIncr(Under50ms) in HandleSendMessage(r, env).stats
        <==> r.httpMethod == "POST" && Elapsed(env) <= 50 * Millisecond
  {
    if r.httpMethod == "POST" {
      StatsOfPost(r, env);
      var cid := CorrelationOf(Header(r, CorrelationHeader), env.generatedId);
      InRequestStats(InjectError(r), Elapsed(env), FailureOf(env.outcome, cid), CounterIncr(Under50ms));
    }
  }

  /** A POST whose send fails counts `sli.requests.total` twice, once in the
      counting pass and once with the failure, and counts the send-failure
      error; a successful one counts the total once; a refused one not at all. */
  lemma RequestsTotalCount(r: Request, env: Env)
    ensures Incrs(HandleSendMessage(r, env).stats, RequestsTotal)
         == if r.httpMethod != "POST" then 0 else if env.outcome == SendOk then 1 else 2
    ensures CounterIncr(SendFailureRequests) in HandleSendMessage(r, env).stats
        <==> r.httpMethod == "POST" && env.outcome != SendOk
  {
    if r.httpMethod == "POST" {
      StatsOfPost(r, env);
      var cid := CorrelationOf(Header(r, CorrelationHeader), env.generatedId);
      var failure := FailureOf(env.outcome, cid);
      StatsRequestsTotal(InjectError(r), Elapsed(env), failure);
      CountedOnlyOnFailure(InjectError(r), Elapsed(env), failure, SendFailureRequests);
      assert failure.None? <==> env.outcome == SendOk;
    } else {
      assert HandleSendMessage(r, env).stats == [];
    }
  }

  /** Both errors sendToService2 can return are %w wraps, so a failed send is
      always counted as an SQS send error and never as an unknown one. */
  lemma FailedSendClassified(r: Request, env: Env)
    ensures CounterIncr(SendErrors) in HandleSendMessage(r, env).stats
        <==> r.httpMethod == "POST" && env.outcome != SendOk
    ensures CounterIncr(UnknownErrors) !in HandleSendMessage(r, env).stats
  {
    if r.httpMethod == "POST" {
      StatsOfPost(r, env);
      var cid := CorrelationOf(Header(r, CorrelationHeader), env.generatedId);
      var failure := FailureOf(env.outcome, cid);
      CountedOnlyOnFailure(InjectError(r), Elapsed(env), failure, SendErrors);
      NeverUnknown(InjectError(r), Elapsed(env), failure);
      assert failure.None? <==> env.outcome == SendOk;
    } else {
      assert HandleSendMessage(r, env).stats == [];
    }
  }

  /** Membership in the calls of a POST, piece by piece. */
  lemma InRequestStats(injectError: bool, d: Nanos, failure: Option<SendFailure>, x: Stat)
    ensures x in RequestStats(injectError, d, failure)
        <==> (injectError && x == CounterIncr(Step1Errors)) || x in CountingPass(injectError, d)
             || (failure.Some? && x in FailureCounters(failure.value))
  {
  }

  /** The send-failure and SQS-error counters appear exactly when the send failed. */
  lemma CountedOnlyOnFailure(injectError: bool, d: Nanos, failure: Option<SendFailure>, m: Metric)
    requires m == SendFailureRequests || m == SendErrors
    ensures CounterIncr(m) in RequestStats(injectError, d, failure) <==> failure.Some?
  {
    InRequestStats(injectError, d, failure, CounterIncr(m));
    if failure.Some? {
      assert ErrorCounter(failure.value) == SendErrors;
      assert CounterIncr(m) in FailureCounters(failure.value);
    }
  }

  lemma NeverUnknown(injectError: bool, d: Nanos, failure: Option<SendFailure>)
    ensures CounterIncr(UnknownErrors) !in RequestStats(injectError, d, failure)
  {
    InRequestStats(injectError, d, failure, CounterIncr(UnknownErrors));
    if failure.Some? {
      assert ErrorCounter(failure.value) == SendErrors;
    }
  }

  lemma StatsByInjection(injectError: bool, d: Nanos, failure: Option<SendFailure>)
    ensures var stats := RequestStats(injectError, d, failure);
      && (CounterIncr(RequestsSuccess) in stats <==> !injectError)
      && (CounterIncr(InvalidDataRequests) in stats <==> injectError)
      && (CounterIncr(Step1Errors) in stats <==> injectError)
  {
    InRequestStats(injectError, d, failure, CounterIncr(RequestsSuccess));
    InRequestStats(injectError, d, failure, CounterIncr(InvalidDataRequests));
    InRequestStats(injectError, d, failure, CounterIncr(Step1Errors));
  }

  lemma CountsByInjection(injectError: bool, d: Nanos, failure: Option<SendFailure>)
    ensures var stats := RequestStats(injectError, d, failure);
      && Incrs(stats, RequestsSuccess) == (if injectError then 0 else 1)
      && Incrs(stats, InvalidDataRequests) == (if injectError then 1 else 0)
      && Incrs(stats, Step1Errors) == (if injectError then 1 else 0)
  {
    CountedByInjection(injectError, d, RequestsSuccess);
    CountedByInjection(injectError, d, InvalidDataRequests);
    CountedByInjection(injectError, d, Step1Errors);
    match failure
    case None =>
    case Some(err) =>
      var c := Counted(injectError, d);
      FailureCountersByInjection(err, RequestsSuccess);
      FailureCountersByInjection(err, InvalidDataRequests);
      FailureCountersByInjection(err, Step1Errors);
      IncrsSplit(c, FailureCounters(err), RequestsSuccess);
      IncrsSplit(c, FailureCounters(err), InvalidDataRequests);
      IncrsSplit(c, FailureCounters(err), Step1Errors);
  }

  /** The failure counters count none of the counters chosen by injection. */
  lemma FailureCountersByInjection(err: SendFailure, m: Metric)
    requires m == RequestsSuccess || m == InvalidDataRequests || m == Step1Errors
    ensures Incrs(FailureCounters(err), m) == 0
  {
    assert ErrorCounter(err) == SendErrors || ErrorCounter(err) == UnknownErrors;
  }

  /** The calls made whatever the send does count the success or the
      invalid-data counter once, by injection, and the step-1 error only on injection. */
  lemma CountedByInjection(injectError: bool, d: Nanos, m: Metric)
    requires m == RequestsSuccess || m == InvalidDataRequests || m == Step1Errors
    ensures Incrs(Counted(injectError, d), m)
         == if m == RequestsSuccess then (if injectError then 0 else 1) else (if injectError then 1 else 0)
  {
    var head := if injectError then [CounterIncr(Step1Errors)] else [];
    var fast := if d <= 50 * Millisecond then [CounterIncr(Under50ms)] else [];
    var first := [CounterIncr(RequestsTotal)]
      + [if injectError then CounterIncr(InvalidDataRequests) else CounterIncr(RequestsSuccess)];
    var last := [TimerSample(ResponseTime, d), TimerSample(Step1Duration, d), CounterIncr(MessagesStep1)];
    assert Counted(injectError, d) == head + (first + fast + last);
    IncrsSplit(head, first + fast + last, m);
    IncrsSplit(first + fast, last, m);
    IncrsSplit(first, fast, m);
  }

  lemma StatsRequestsTotal(injectError: bool, d: Nanos, failure: Option<SendFailure>)
    ensures Incrs(RequestStats(injectError, d, failure), RequestsTotal) == if failure.None? then 1 else 2
  {
    CountedTotal(injectError, d);
    if failure.Some? {
      IncrsSplit(Counted(injectError, d), FailureCounters(failure.value), RequestsTotal);
      assert Incrs(FailureCounters(failure.value), RequestsTotal) == 1;
    }
  }

  lemma CountedTotal(injectError: bool, d: Nanos)
    ensures Incrs(Counted(injectError, d), RequestsTotal) == 1
  {
    IncrsSplit(if injectError then [CounterIncr(Step1Errors)] else [], CountingPass(injectError, d), RequestsTotal);
    assert Incrs(CountingPass(injectError, d), RequestsTotal) == 1;
  }

  /** sendToService2: builds the attributes, marshals and sends; only a
      successful send returns no error. */
  method SendToService2(message: PipelineMessage, correlationId: string, carrier: TextMap,
                        outcome: SendOutcome, queuedHandle: string, queue: Queue)
    returns (err: Option<SendFailure>)
    modifies queue
    ensures err == FailureOf(outcome, correlationId)
    ensures queue.messages == old(queue.messages) +
      if outcome == SendOk
      then [QueueMessage(queuedHandle, Json(message), OutgoingAttributes(correlationId, carrier))]
      else []
  {
    var msgAttrs := BuildAttributes(correlationId, carrier);
    if outcome == MarshalError {
      return Some(MarshalFailure);
    }
    if outcome == SendError {
      return Some(QueueSendFailure(correlationId, QueueUrl));
    }
    queue.Send(QueueMessage(queuedHandle, Json(message), msgAttrs));
    return None;
  }

  /** The counting pass, as statsd calls. */
  method EmitCountingPass(injectError: bool, step1Duration: Nanos, sink: Statsd)
    modifies sink
    ensures sink.stream == old(sink.stream) + CountingPass(injectError, step1Duration)
  {
    sink.Incr(RequestsTotal);
    if !injectError {
      sink.Incr(RequestsSuccess);
    } else {
      sink.Incr(InvalidDataRequests);
    }
    if step1Duration <= 50 * Millisecond {
      sink.Incr(Under50ms);
    }
    sink.Timing(ResponseTime, step1Duration);
    sink.Timing(Step1Duration, step1Duration);
    sink.Incr(MessagesStep1);
  }

  /** The first part of sendMessageHandler: the correlation id, the injection
      flag and the item, built field by field, with the step-1 error counter
      when an error is injected. */
  method PrepareMessage(r: Request, env: Env, sink: Statsd)
    returns (correlationId: string, injectError: bool, message: PipelineMessage)
    modifies sink
    ensures correlationId == CorrelationOf(Header(r, CorrelationHeader), env.generatedId)
    ensures injectError == InjectError(r)
    ensures message == InitialMessage(correlationId, injectError, env.startStamp, env.step1Stamp)
    ensures sink.stream == old(sink.stream) + if injectError then [CounterIncr(Step1Errors)] else []
  {
    correlationId := Header(r, CorrelationHeader);
    if correlationId == "" {
      correlationId := env.generatedId;
    }
    injectError := Header(r, InjectErrorHeader) == "true";

    message := PipelineMessage(correlationId, InitialData, Milestones(None, None, None, 0), "");
    message := message.(pipeline := message.pipeline.(startTime := Some(env.startStamp)));
    message := message.(pipeline := message.pipeline.(currentStep := 1));

    if injectError {
      message := message.(errorType := InvalidData);
      sink.Incr(Step1Errors);
    }

    message := message.(pipeline := message.pipeline.(step1Complete := Some(env.step1Stamp)));
  }

  /** The counters of a failed send, with the error classified by its type. */
  method CountSendFailure(err: SendFailure, sink: Statsd)
    modifies sink
    ensures sink.stream == old(sink.stream) + FailureCounters(err)
  {
    sink.Incr(RequestsTotal);
    sink.Incr(SendFailureRequests);
    if TypeName(err) == "*fmt.wrapError" {
      sink.Incr(SendErrors);
    } else {
      // business.pipeline.errors.unknown: no error SendToService2 returns reaches here
      assert false;
    }
  }

  /** sendMessageHandler: builds the item, counts the request and sends the
      item to queue-step-1. */
  method SendMessageHandler(r: Request, env: Env, queue: Queue, sink: Statsd) returns (resp: Response)
    modifies queue, sink
    ensures resp == HandleSendMessage(r, env).response
    ensures queue.messages == old(queue.messages) + HandleSendMessage(r, env).sent
    ensures sink.stream == old(sink.stream) + HandleSendMessage(r, env).stats
  {
    if r.httpMethod != "POST" {
      return Response(StatusMethodNotAllowed, Text("Method not allowed\n"));
    }
    var correlationId, injectError, message := PrepareMessage(r, env, sink);
    var step1Duration := Elapsed(env);
    EmitCountingPass(injectError, step1Duration, sink);
    assert sink.stream == old(sink.stream) + Counted(injectError, step1Duration);

    var err := SendToService2(message, correlationId, env.carrier, env.outcome, env.queuedHandle, queue);
    if err.Some? {
      CountSendFailure(err.value, sink);
      return Response(StatusInternalServerError, Text("Internal server error: failed to process pipeline message\n"));
    }
    resp := Response(StatusOk, Started("Pipeline started - Step1 completed", correlationId, 1, Milliseconds(step1Duration)));
  }
}
