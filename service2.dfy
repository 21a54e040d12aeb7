/** Stage 2 (shard/service2): consumes queue-step-1, short-circuits items that
    carry the inherited `invalid_data` error, marks the others as processed and
    forwards them to queue-step-2. */
module Service2 {
  import opened Pipeline
  import opened Carrier
  import opened Transport

  /** The pause after a receive error, before the next poll. */
  const RetryPause: Nanos := 5 * Second

  const ProcessedPrefix := "Processed by service2: "

  const ReceiveErrors := Metric("business.pipeline.errors.sqs.receive", ["service:service2"])
  const UnmarshalErrors := Metric("business.pipeline.errors.json.unmarshal", ["service:service2"])
  const Step1ToStep2 := Metric("business.pipeline.step1_to_step2.duration", ["service:service2"])
  const InheritedErrors := Metric("business.pipeline.errors.step2", ["service:service2", "type:inherited"])
  const ProcessingTotal := Metric("sli.processing.total", ["service:service2", "operation:message_processing"])
  const ProcessingSuccess := Metric("sli.processing.success", ["service:service2", "operation:message_processing"])
  const InheritedProcessingError :=
    Metric("sli.processing.error", ["service:service2", "operation:message_processing", "error_type:inherited_error"])
  const SendProcessingError :=
    Metric("sli.processing.error", ["service:service2", "operation:message_processing", "error_type:sqs_send_failure"])
  const FailedStep2 := Metric("business.pipeline.failed.step2", ["service:service2"])
  const Under50ms := Metric("sli.latency.under_50ms", ["service:service2"])
  const ProcessingTime := Metric("sli.processing_time", ["service:service2", "operation:message_processing"])
  const Step2Duration := Metric("business.pipeline.step2.duration", ["service:service2"])
  const MessagesStep2 := Metric("business.pipeline.messages.step2", ["service:service2"])
  const SendErrors := Metric("business.pipeline.errors.sqs.send", ["service:service2"])

  function PipelineDuration(shard: string): Metric {
    Metric("sli.pipeline.duration", ["service:service2", "shard:" + shard, "step:2"])
  }

  /** What the handling of one message sees of the world outside it: the clock
      when handling starts, after the simulated work and when Step2Complete is
      stamped; the id uuid.New would give; the carrier tracer.Inject fills; how
      the marshal and send end; the receipt handle the forwarded copy gets. */
  datatype Env = Env(
    step2Start: Nanos,
    workDone: Nanos,
    step2Stamp: Nanos,
    generatedId: string,
    carrierOut: TextMap,
    outcome: SendOutcome,
    forwardHandle: string)

  /** The step-2 duration, time.Since(step2Start) taken once the work is done. */
  function Elapsed(env: Env): Nanos {
    Since(env.workDone, env.step2Start)
  }

  datatype Disposition = DroppedMalformed | ShortCircuited | MarshalFailed | SendFailed | Forwarded

  datatype Outcome = Outcome(disposition: Disposition, effects: Effects)

  /** The item as stage 2 forwards it. */
  function Processed(m: PipelineMessage, stamp: Nanos): (r: PipelineMessage)
    ensures r.data == ProcessedPrefix + m.data
    ensures r.pipeline.step2Complete == Some(stamp) && r.pipeline.currentStep == 2
    ensures r.correlationId == m.correlationId && r.errorType == m.errorType
    ensures r.pipeline.startTime == m.pipeline.startTime && r.pipeline.step1Complete == m.pipeline.step1Complete
  {
    m.(data := ProcessedPrefix + m.data,
       pipeline := m.pipeline.(step2Complete := Some(stamp), currentStep := 2))
  }

  /** The step1 -> step2 timing, emitted only when Step1Complete parses. */
  function Step1Timing(m: PipelineMessage, step2Start: Nanos): seq<Stat> {
    match m.pipeline.step1Complete
    case Some(t) => [TimerSample(Step1ToStep2, Sub(step2Start, t))]
    case None => []
  }

  /** The statsd calls of the processing path before the send. */
  function ProcessingStats(d: Nanos, shard: string): seq<Stat> {
    [CounterIncr(ProcessingTotal), CounterIncr(ProcessingSuccess)]
    + (if d <= 50 * Millisecond then [CounterIncr(Under50ms)] else [])
    + [TimerSample(ProcessingTime, d), TimerSample(Step2Duration, d),
       CounterIncr(MessagesStep2), TimerSample(PipelineDuration(shard), d)]
  }

  /** The statsd calls made for a decoded item, in order. */
  function DecodedStats(m: PipelineMessage, env: Env, shard: string): seq<Stat> {
    var timing := Step1Timing(m, env.step2Start);
    if m.errorType == InvalidData then
      timing + [CounterIncr(InheritedErrors), CounterIncr(ProcessingTotal),
                CounterIncr(InheritedProcessingError), CounterIncr(FailedStep2)]
    else
      var stats := timing + ProcessingStats(Elapsed(env), shard);
      if env.outcome == SendError
      then stats + [CounterIncr(ProcessingTotal), CounterIncr(SendProcessingError), CounterIncr(SendErrors)]
      else stats
  }

  /** processStep2Message on one received message. */
  function Step2(msg: QueueMessage, env: Env, shard: string): (r: Outcome)
    // the disposition follows from the body, the error tag and the send outcome alone
    ensures r.disposition == DroppedMalformed <==> msg.body.Malformed?
    ensures r.disposition == ShortCircuited <==> msg.body.Json? && msg.body.message.errorType == InvalidData
    ensures r.disposition == Forwarded <==>
              msg.body.Json? && msg.body.message.errorType != InvalidData && env.outcome == SendOk
    ensures r.disposition == MarshalFailed <==>
              msg.body.Json? && msg.body.message.errorType != InvalidData && env.outcome == MarshalError
    // the input message is deleted unless a forward was attempted and failed
    ensures r.effects.deleted <==> r.disposition !in {MarshalFailed, SendFailed}
    // at most one message is forwarded, and only on a successful send
    ensures |r.effects.sent| == (if r.disposition == Forwarded then 1 else 0)
    ensures r.disposition == Forwarded ==>
              r.effects.sent[0] == QueueMessage(
                env.forwardHandle,
                Json(Processed(msg.body.message, env.step2Stamp)),
                OutgoingAttributes(CorrelationOf(msg.body.message.correlationId, env.generatedId), env.carrierOut))
  {
    match msg.body
    case Malformed =>
      Outcome(DroppedMalformed, Effects(true, [], [CounterIncr(UnmarshalErrors)]))
    case Json(m) =>
      var stats := DecodedStats(m, env, shard);
      if m.errorType == InvalidData then
        Outcome(ShortCircuited, Effects(true, [], stats))
      else
        var correlationId := CorrelationOf(m.correlationId, env.generatedId);
        match env.outcome
        case MarshalError =>
          Outcome(MarshalFailed, Effects(false, [], stats))
        case SendError =>
          Outcome(SendFailed, Effects(false, [], stats))
        case SendOk =>
          var forwarded := QueueMessage(env.forwardHandle, Json(Processed(m, env.step2Stamp)),
                                        OutgoingAttributes(correlationId, env.carrierOut));
          Outcome(Forwarded, Effects(true, [forwarded], stats))
  }

  /** A malformed body only counts the unmarshal error; a decoded one makes the calls DecodedStats lists. */
  lemma Step2Stats(msg: QueueMessage, env: Env, shard: string)
    ensures Step2(msg, env, shard).effects.stats
         == if msg.body.Malformed? then [CounterIncr(UnmarshalErrors)] else DecodedStats(msg.body.message, env, shard)
  {
  }

  /** A malformed body gets no further processing: only the unmarshal error is counted. */
  lemma MalformedOnlyCounted(msg: QueueMessage, env: Env, shard: string)
    requires msg.body.Malformed?
    ensures Step2(msg, env, shard).effects == Effects(true, [], [CounterIncr(UnmarshalErrors)])
  {
  }

  /** The step1 -> step2 timing is emitted when Step1Complete parses, with the
      time since that stamp, and not at all otherwise. */
  lemma Step1TimingOnlyWhenParsed(msg: QueueMessage, env: Env, shard: string)
    ensures TimedValues(Step2(msg, env, shard).effects.stats, Step1ToStep2)
         == if msg.body.Json? && msg.body.message.pipeline.step1Complete.Some?
            then {Sub(env.step2Start, msg.body.message.pipeline.step1Complete.value)} else {}
  {
    Step2Stats(msg, env, shard);
    if msg.body.Json? {
      var m := msg.body.message;
      DecodedStep1Timing(m, env, shard);
      assert TimedValues(Step1Timing(m, env.step2Start), Step1ToStep2)
          == if m.pipeline.step1Complete.Some? then {Sub(env.step2Start, m.pipeline.step1Complete.value)} else {};
    } else {
      assert TimedValues([CounterIncr(UnmarshalErrors)], Step1ToStep2) == {};
    }
  }

  /** Only the leading step1 -> step2 piece of a decoded item's calls times Step1ToStep2. */
  lemma DecodedStep1Timing(m: PipelineMessage, env: Env, shard: string)
    ensures TimedValues(DecodedStats(m, env, shard), Step1ToStep2) == TimedValues(Step1Timing(m, env.step2Start), Step1ToStep2)
  {
    if m.errorType == InvalidData {
      ShortCircuitStep1Timing(m, env, shard);
    } else if env.outcome == SendError {
      SendFailureStats(m, env, shard);
      ProcessedStep1Timing(m, env.(outcome := SendOk), shard);
      TimedValuesSplit(DecodedStats(m, env.(outcome := SendOk), shard),
                       [CounterIncr(ProcessingTotal), CounterIncr(SendProcessingError), CounterIncr(SendErrors)],
                       Step1ToStep2);
    } else {
      ProcessedStep1Timing(m, env, shard);
    }
  }

  lemma ShortCircuitStep1Timing(m: PipelineMessage, env: Env, shard: string)
    requires m.errorType == InvalidData
    ensures TimedValues(DecodedStats(m, env, shard), Step1ToStep2) == TimedValues(Step1Timing(m, env.step2Start), Step1ToStep2)
  {
    var timing := Step1Timing(m, env.step2Start);
    var rest := [CounterIncr(InheritedErrors), CounterIncr(ProcessingTotal),
                 CounterIncr(InheritedProcessingError), CounterIncr(FailedStep2)];
    assert DecodedStats(m, env, shard) == timing + rest;
    TimedValuesSplit(timing, rest, Step1ToStep2);
  }

  lemma ProcessedStep1Timing(m: PipelineMessage, env: Env, shard: string)
    requires m.errorType != InvalidData && env.outcome != SendError
    ensures TimedValues(DecodedStats(m, env, shard), Step1ToStep2) == TimedValues(Step1Timing(m, env.step2Start), Step1ToStep2)
  {
    var timing := Step1Timing(m, env.step2Start);
    var ps := ProcessingStats(Elapsed(env), shard);
    assert DecodedStats(m, env, shard) == timing + ps;
    ProcessingStatsUntimed(Elapsed(env), shard);
    TimedValuesSplit(timing, ps, Step1ToStep2);
  }

  lemma ProcessingStatsUntimed(d: Nanos, shard: string)
    ensures TimedValues(ProcessingStats(d, shard), Step1ToStep2) == {}
  {
  }

  /** `sli.latency.under_50ms` is counted exactly on the processing path, when the step took at most 50 ms. */
  lemma Under50msIffFast(msg: QueueMessage, env: Env, shard: string)
    ensures CounterIncr(Under50ms) in Step2(msg, env, shard).effects.stats
        <==> msg.body.Json? && msg.body.message.errorType != InvalidData
             && Elapsed(env) <= 50 * Millisecond
  {
  }

  /** The short-circuit counts the inherited error and the failed step, and no success. */
  lemma ShortCircuitCounters(msg: QueueMessage, env: Env, shard: string)
    requires msg.body.Json? && msg.body.message.errorType == InvalidData
    ensures var stats := Step2(msg, env, shard).effects.stats;
      && CounterIncr(InheritedErrors) in stats && CounterIncr(InheritedProcessingError) in stats
      && CounterIncr(FailedStep2) in stats
      && CounterIncr(ProcessingSuccess) !in stats && CounterIncr(Under50ms) !in stats
    ensures var stats := Step2(msg, env, shard).effects.stats;
      && Incrs(stats, InheritedErrors) == 1 && Incrs(stats, InheritedProcessingError) == 1
      && Incrs(stats, FailedStep2) == 1
  {
    assert Step2(msg, env, shard).effects.stats == DecodedStats(msg.body.message, env, shard) by {
      Step2Stats(msg, env, shard);
    }
    InheritedCounts(msg.body.message, env, shard);
  }

  /** The calls of a short-circuited item count each inherited-error counter once. */
  lemma InheritedCounts(m: PipelineMessage, env: Env, shard: string)
    requires m.errorType == InvalidData
    ensures var stats := DecodedStats(m, env, shard);
      && CounterIncr(InheritedErrors) in stats && CounterIncr(InheritedProcessingError) in stats
      && CounterIncr(FailedStep2) in stats
      && CounterIncr(ProcessingSuccess) !in stats && CounterIncr(Under50ms) !in stats
    ensures var stats := DecodedStats(m, env, shard);
      && Incrs(stats, InheritedErrors) == 1 && Incrs(stats, InheritedProcessingError) == 1
      && Incrs(stats, FailedStep2) == 1
  {
    var timing := Step1Timing(m, env.step2Start);
    var tail := [CounterIncr(InheritedErrors), CounterIncr(ProcessingTotal),
                 CounterIncr(InheritedProcessingError), CounterIncr(FailedStep2)];
    assert DecodedStats(m, env, shard) == timing + tail;
    IncrsSplit(timing, tail, InheritedErrors);
    IncrsSplit(timing, tail, InheritedProcessingError);
    IncrsSplit(timing, tail, FailedStep2);
  }

  /** `sli.processing.total` is counted once per parsed message, and a second time after a send failure. */
  lemma ProcessingTotalCount(msg: QueueMessage, env: Env, shard: string)
    ensures Incrs(Step2(msg, env, shard).effects.stats, ProcessingTotal)
         == if msg.body.Malformed? then 0
            else if msg.body.message.errorType != InvalidData && env.outcome == SendError then 2
            else 1
  {
    Step2Stats(msg, env, shard);
    if msg.body.Json? {
      DecodedProcessingTotal(msg.body.message, env, shard);
    }
  }

  lemma DecodedProcessingTotal(m: PipelineMessage, env: Env, shard: string)
    ensures Incrs(DecodedStats(m, env, shard), ProcessingTotal)
         == if m.errorType != InvalidData && env.outcome == SendError then 2 else 1
  {
    if m.errorType == InvalidData {
      ShortCircuitTotal(m, env, shard);
    } else if env.outcome == SendError {
      SendFailureTotal(m, env, shard);
    } else {
      ProcessedTotal(m, env, shard);
    }
  }

  lemma ShortCircuitTotal(m: PipelineMessage, env: Env, shard: string)
    requires m.errorType == InvalidData
    ensures Incrs(DecodedStats(m, env, shard), ProcessingTotal) == 1
  {
  }

  lemma ProcessedTotal(m: PipelineMessage, env: Env, shard: string)
    requires m.errorType != InvalidData && env.outcome != SendError
    ensures Incrs(DecodedStats(m, env, shard), ProcessingTotal) == 1
  {
  }

  /** The calls of a failed send: those of the processing path, then the send-failure counters. */
  lemma SendFailureStats(m: PipelineMessage, env: Env, shard: string)
    requires m.errorType != InvalidData && env.outcome == SendError
    ensures DecodedStats(m, env, shard)
         == DecodedStats(m, env.(outcome := SendOk), shard)
            + [CounterIncr(ProcessingTotal), CounterIncr(SendProcessingError), CounterIncr(SendErrors)]
  {
  }

  lemma SendFailureTotal(m: PipelineMessage, env: Env, shard: string)
    requires m.errorType != InvalidData && env.outcome == SendError
    ensures Incrs(DecodedStats(m, env, shard), ProcessingTotal) == 2
  {
    SendFailureStats(m, env, shard);
    ProcessedTotal(m, env.(outcome := SendOk), shard);
    IncrsSplit(DecodedStats(m, env.(outcome := SendOk), shard),
               [CounterIncr(ProcessingTotal), CounterIncr(SendProcessingError), CounterIncr(SendErrors)], ProcessingTotal);
  }

  /** The step1 -> step2 timing call, made when Step1Complete parses. */
  method EmitStep1Timing(message: PipelineMessage, step2Start: Nanos, sink: Statsd)
    modifies sink
    ensures sink.stream == old(sink.stream) + Step1Timing(message, step2Start)
  {
    if message.pipeline.step1Complete.Some? {
      sink.Timing(Step1ToStep2, Sub(step2Start, message.pipeline.step1Complete.value));
    }
  }

  /** The SLI and business metric calls of the processing path. */
  method EmitProcessingStats(step2Duration: Nanos, shard: string, sink: Statsd)
    modifies sink
    ensures sink.stream == old(sink.stream) + ProcessingStats(step2Duration, shard)
  {
    sink.Incr(ProcessingTotal);
    sink.Incr(ProcessingSuccess);
    if step2Duration <= 50 * Millisecond {
      sink.Incr(Under50ms);
    }
    sink.Timing(ProcessingTime, step2Duration);
    sink.Timing(Step2Duration, step2Duration);
    sink.Incr(MessagesStep2);
    sink.Timing(PipelineDuration(shard), step2Duration);
  }

  /** The short-circuit path: count the inherited error, delete the input, forward nothing. */
  method ShortCircuit(receiptHandle: string, input: Queue, sink: Statsd)
    modifies input, sink
    ensures input.messages == Without(old(input.messages), receiptHandle)
    ensures sink.stream == old(sink.stream) + [CounterIncr(InheritedErrors), CounterIncr(ProcessingTotal),
                                               CounterIncr(InheritedProcessingError), CounterIncr(FailedStep2)]
  {
    sink.Incr(InheritedErrors);
    // delete so that the failed item is not processed again
    input.Delete(receiptHandle);
    sink.Incr(ProcessingTotal);
    sink.Incr(InheritedProcessingError);
    sink.Incr(FailedStep2);
  }

  /** The forwarding path: marshal, send to queue-step-2, and delete the input
      only once the send has succeeded. */
  method Forward(message: PipelineMessage, correlationId: string, env: Env, receiptHandle: string,
                 input: Queue, output: Queue, sink: Statsd)
    requires input != output
    modifies input, output, sink
    ensures input.messages == if env.outcome == SendOk then Without(old(input.messages), receiptHandle)
                              else old(input.messages)
    ensures output.messages == old(output.messages) +
              if env.outcome == SendOk
              then [QueueMessage(env.forwardHandle, Json(message), OutgoingAttributes(correlationId, env.carrierOut))]
              else []
    ensures sink.stream == old(sink.stream) +
              if env.outcome == SendError
              then [CounterIncr(ProcessingTotal), CounterIncr(SendProcessingError), CounterIncr(SendErrors)]
              else []
  {
    var msgAttrs := BuildAttributes(correlationId, env.carrierOut);
    if env.outcome == MarshalError {
      return;
    }
    if env.outcome == SendError {
      sink.Incr(ProcessingTotal);
      sink.Incr(SendProcessingError);
      sink.Incr(SendErrors);
      return;
    }
    output.Send(QueueMessage(env.forwardHandle, Json(message), msgAttrs));
    input.Delete(receiptHandle);
  }

  /** processStep2Message: the handling of one received message, with its
      statsd calls, its send to queue-step-2 and its delete from queue-step-1. */
  method ProcessStep2Message(msg: QueueMessage, env: Env, shard: string, input: Queue, output: Queue, sink: Statsd)
    requires input != output
    modifies input, output, sink
    ensures World(input.messages, output.messages, sink.stream)
         == Apply(World(old(input.messages), old(output.messages), old(sink.stream)),
                  msg.receiptHandle, Step2(msg, env, shard).effects)
  {
    if msg.body.Malformed? {
      sink.Incr(UnmarshalErrors);
      // delete the malformed message so that it is not received again
      input.Delete(msg.receiptHandle);
      return;
    }
    var message := msg.body.message;

    var correlationId := message.correlationId;
    if correlationId == "" {
      correlationId := env.generatedId;
    }

    // the carrier goes to tracer.Extract, which only decides the span's parent
    var carrier := ExtractCarrier(msg.attributes);

    EmitStep1Timing(message, env.step2Start, sink);
    ghost var timing := Step1Timing(message, env.step2Start);

    var processingFailed := message.errorType == InvalidData;
    if processingFailed {
      ShortCircuit(msg.receiptHandle, input, sink);
      assert sink.stream == old(sink.stream) + Step2(msg, env, shard).effects.stats;
      return;
    }

    var step2Duration := Elapsed(env);

    message := message.(data := ProcessedPrefix + message.data);
    message := message.(pipeline := message.pipeline.(step2Complete := Some(env.step2Stamp)));
    message := message.(pipeline := message.pipeline.(currentStep := 2));

    assert message == Processed(msg.body.message, env.step2Stamp);

    EmitProcessingStats(step2Duration, shard, sink);
    ghost var stats := timing + ProcessingStats(step2Duration, shard);
    assert sink.stream == old(sink.stream) + stats;
    Forward(message, correlationId, env, msg.receiptHandle, input, output, sink);
    assert sink.stream == old(sink.stream) + Step2(msg, env, shard).effects.stats;
  }

  /** One turn of consumeFromStep1. */
  function Poll(w: World, tick: Tick<Env>, shard: string): World {
    match tick
    case ReceiveFailed => w.(stream := w.stream + [CounterIncr(ReceiveErrors)])
    case Polled(env) =>
      if w.input == [] then w
      else Apply(w, w.input[0].receiptHandle, Step2(w.input[0], env, shard).effects)
  }

  /** The state after the consumer loop has taken the given turns. */
  function Run(w: World, ticks: seq<Tick<Env>>, shard: string): World {
    if ticks == [] then w
    else Poll(Run(w, ticks[..|ticks| - 1], shard), ticks[|ticks| - 1], shard)
  }

  /** consumeFromStep1, over a finite prefix of its endless loop: every receive
      error is counted and followed by a pause, and the loop goes on polling.
      Returns the total time spent pausing. */
  method ConsumeFromStep1(ticks: seq<Tick<Env>>, shard: string, input: Queue, output: Queue, sink: Statsd)
    returns (paused: Nanos)
    requires input != output
    modifies input, output, sink
    ensures World(input.messages, output.messages, sink.stream)
         == Run(World(old(input.messages), old(output.messages), old(sink.stream)), ticks, shard)
    ensures paused == Failures(ticks) * RetryPause
  {
    ghost var w0 := World(input.messages, output.messages, sink.stream);
    paused := 0;
    for i := 0 to |ticks|
      invariant World(input.messages, output.messages, sink.stream) == Run(w0, ticks[..i], shard)
      invariant paused == Failures(ticks[..i]) * RetryPause
    {
      assert ticks[..i + 1][..i] == ticks[..i];
      var result := input.Receive(ticks[i].Polled?);
      match result
      case ReceiveError =>
        sink.Incr(ReceiveErrors);
        paused := paused + RetryPause;
      case NoMessage =>
      case Message(msg) =>
        ProcessStep2Message(msg, ticks[i].env, shard, input, output, sink);
    }
    assert ticks[..|ticks|] == ticks;
  }

  /** A receive error never ends the loop and never changes what it does to the
      queues: the same turns without the errors leave both queues and every
      other statsd call exactly as they are, and the errors only add one
      `errors.sqs.receive` increment each. */
  lemma {:induction false} ReceiveErrorsOnlyCounted(w: World, ticks: seq<Tick<Env>>, shard: string)
    ensures var a, b := Run(w, ticks, shard), Run(w, Successes(ticks), shard);
      && a.input == b.input && a.output == b.output
      && Strip(a.stream, ReceiveErrors) == Strip(b.stream, ReceiveErrors)
      && Incrs(a.stream, ReceiveErrors) == Incrs(b.stream, ReceiveErrors) + Failures(ticks)
  {
    if ticks != [] {
      var init, t := ticks[..|ticks| - 1], ticks[|ticks| - 1];
      ReceiveErrorsOnlyCounted(w, init, shard);
      var a0, b0 := Run(w, init, shard), Run(w, Successes(init), shard);
      match t
      case ReceiveFailed =>
        StripAppend(a0.stream, [CounterIncr(ReceiveErrors)], ReceiveErrors);
      case Polled(env) =>
        var si := Successes(init);
        assert (si + [t])[..|si|] == si;
        if a0.input != [] {
          var e := Step2(a0.input[0], env, shard).effects;
          StripAppend(a0.stream, e.stats, ReceiveErrors);
          StripAppend(b0.stream, e.stats, ReceiveErrors);
        }
    }
  }

  /** A parsed, error-free item whose forward fails stays at the head of
      queue-step-1, so the next poll receives it again; nothing reaches
      queue-step-2. */
  lemma FailedForwardIsRedelivered(w: World, env: Env, shard: string)
    requires w.input != [] && w.input[0].body.Json? && w.input[0].body.message.errorType != InvalidData
    requires env.outcome != SendOk
    ensures Poll(w, Polled(env), shard).input == w.input
    ensures Poll(w, Polled(env), shard).output == w.output
  {
  }

  /** Every other polled item leaves queue-step-1 in the same turn, and only
      it: the rest of the queue, whatever receipt handles it carries, stays. */
  lemma HandledItemLeavesQueue(w: World, env: Env, shard: string)
    requires w.input != []
    requires w.input[0].body.Malformed? || w.input[0].body.message.errorType == InvalidData || env.outcome == SendOk
    ensures Poll(w, Polled(env), shard).input == w.input[1..]
  {
  }

  /** The forwarded body keeps its own CorrelationID, possibly empty; the
      `correlation-id` attribute carries the non-empty id the stage used, unless
      the injected carrier overrides that key. */
  lemma ForwardedCorrelation(msg: QueueMessage, env: Env, shard: string)
    requires env.generatedId != ""
    requires Step2(msg, env, shard).disposition == Forwarded
    ensures var out := Step2(msg, env, shard).effects.sent[0];
      var used := CorrelationOf(msg.body.message.correlationId, env.generatedId);
      && out.body.message.correlationId == msg.body.message.correlationId
      && used != ""
      && (CorrelationKey !in env.carrierOut ==> out.attributes[CorrelationKey] == StringAttribute(used))
  {
  }
}
