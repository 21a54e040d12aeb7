# Three-stage SQS pipeline with statsd telemetry

This project models a pipeline of three Go services that pass one work item,
`PipelineMessage`, along two SQS queues:

- **service1 (ingress).** An HTTP POST to `/send-message` builds the item. It
  takes the correlation id from `X-Correlation-ID`, or a generated id when that
  header is empty. It tags the item `invalid_data` when `X-Inject-Error` is
  exactly `"true"`, stamps `StartTime` and `Step1Complete`, counts the request,
  and sends the item to `service-queue-step1` with a `correlation-id` attribute
  and the trace carrier.
- **shard/service2 (relay).** It consumes `service-queue-step1`.
  - A body that does not decode is counted and deleted.
  - An item tagged `invalid_data` is short-circuited: it is counted as an
    inherited error, deleted, and not forwarded.
  - Any other item gets the data prefix, `Step2Complete` and `CurrentStep = 2`.
    It is forwarded to `service-queue-step2`, and deleted from the input only
    after the send has succeeded.
- **service3 (sink).** It consumes `service-queue-step2`. From the milestones
  the item carries it derives the hand-off, end-to-end and per-step durations.
  It counts the SLI and completion metrics and deletes the message. A body that
  does not decode is left on the queue.

Each stage has two parts:
- a pure function from the received message and an environment to the stage's
  effects (`Effects`: whether the input is deleted, what is sent, and the
  ordered statsd calls);
- an imperative method over the queue and statsd objects (`Transport.Queue`,
  `Transport.Statsd`), proved to change them exactly as that function says.

The consumer loops are `for` loops over a finite script of poll results. They
are proved equal to a left fold of the one-turn function (`Run`).

The `EndToEnd` module composes the stages. It shows a request traversing all
three queues, and shows where an injected error and a failed ingress send stop.

The environment of each stage holds everything the code reads from outside:
- the clock readings (`time.Now`, `time.Since`);
- the id `uuid.New` would return;
- the carrier `tracer.Inject` fills;
- how `json.Marshal` and `SendMessage` end;
- the receipt handle a sent message gets.

A timestamp field is an `Option` of nanoseconds: `Some(t)` when the RFC 3339
string parses to the instant `t`, `None` otherwise. `Pipeline.Since` and `Pipeline.Sub` are
`time.Since` and `Time.Sub` on those nanoseconds.

The statsd client is the ordered stream of `Incr`/`Timing` datagrams it has
sent. Metrics are identified by name and tags, so the two `sli.processing.error`
variants of service2 are different metrics. `Pipeline.Tally` gives the counter
map a statsd agent would hold for a stream.

## Model

| member | source | states |
|---|---|---|
| Pipeline.CorrelationOf | shard/service2/main.go:218-221 | the id used is the body's id when non-empty, else the generated one; it is non-empty exactly when one of them is |
| Pipeline.TallyCounts | service1/main.go:171-184 | the counter an agent holds for a metric equals the number of increments of it in the stream, for every stream |
| Transport.Queue.Receive | shard/service2/main.go:163-168 | with MaxNumberOfMessages 1: an error when the transport is unreachable, nothing from an empty queue, otherwise the message at the head of the queue, which stays on the queue |
| Transport.Queue.Send | service1/main.go:305-309 | a successful SendMessage appends the message to the queue |
| Transport.Queue.Delete | shard/service2/main.go:430-433 | DeleteMessage removes the one message its receipt handle was issued for, the first queued message carrying it; every other message stays, in order |
| Pipeline.WithoutRemovesOne | shard/service2/main.go:430-433 | a delete removes exactly the first message carrying the handle, leaving the queue as everything before it followed by everything after it, and removes nothing when no message carries the handle; every message with another handle stays |
| Transport.Statsd.Incr | service1/main.go:171 | one counter datagram is appended to the stream |
| Transport.Statsd.Timing | service1/main.go:180 | one timer datagram with the duration is appended to the stream |
| Carrier.ExtractCarrier | shard/service2/main.go:224-229 | the carrier holds exactly the attributes whose StringValue is set, with those values |
| Carrier.BuildAttributes | shard/service2/main.go:363-374 | the keys are the carrier's plus `correlation-id`; every carrier entry is present and wins a collision; otherwise `correlation-id` maps to the id |
| Carrier.CarrierAcrossHop | service3/main.go:137-142 | what the next stage extracts from the sent attributes is `correlation-id` ↦ id overwritten by the sender's carrier |
| Service1.FailureOf | service1/main.go:289-324 | sendToService2 returns no error exactly when the send succeeds |
| Service1.Milliseconds | service1/main.go:237 | Duration.Milliseconds truncates toward zero: the bounds for non-negative and negative durations |
| Service1.InitialMessage | service1/main.go:140-167 | the built item has the id, the fixed data, StartTime and Step1Complete set, no Step2Complete, step 1, and `invalid_data` exactly on injection, else an empty tag |
| Service1.HandleSendMessage | service1/main.go:112-240 | 405 exactly for a non-POST, with nothing sent and no metric; for a POST, 200 exactly when the send succeeds and 500 otherwise; exactly one item queued on success, with that item and the response body `correlation_id`, step 1, `duration_ms` |
| Service1.CorrelationIdNeverEmpty | service1/main.go:123-126 | the id is the header when non-empty, else the generated id, never empty, and it is the queued item's id |
| Service1.ErrorTagIffInjected | service1/main.go:127-148 | the queued item carries `invalid_data` exactly when `X-Inject-Error` is `"true"`, and is untagged otherwise |
| Service1.OutcomeCounterByInjection | service1/main.go:113-176 | the handler counts `sli.requests.success` exactly for a POST without injection, and `sli.requests.error{invalid_data}` and `errors.step1` exactly for a POST with injection; each exactly once where it is counted, and a refused request counts none of them |
| Service1.Under50msIffFast | service1/main.go:113-179 | the handler counts `sli.latency.under_50ms` exactly for a POST whose step took at most 50 ms |
| Service1.RequestsTotalCount | service1/main.go:113-211 | the handler counts `sli.requests.total` never for a refused request, once for a POST whose send succeeds and twice for one whose send fails; `error_type:sqs_send_failure` is counted exactly for the latter |
| Service1.FailedSendClassified | service1/main.go:186-218 | both errors sendToService2 returns are `%w` wraps, so the handler counts `errors.sqs.send` exactly for a POST whose send fails, and never `errors.unknown` |
| Service1.SendToService2 | service1/main.go:242-325 | returns FailureOf the outcome; the queue gains the item with the built attributes exactly when the send succeeds, and is unchanged otherwise |
| Service1.EmitCountingPass | service1/main.go:170-184 | the stream gains the counting-pass calls in the handler's order |
| Service1.PrepareMessage | service1/main.go:123-167 | the item built field by field is InitialMessage of the resolved id and flag; the stream gains `errors.step1` exactly on injection |
| Service1.CountSendFailure | service1/main.go:209-218 | the stream gains the two SLI error counters and the classified error counter |
| Service1.SendMessageHandler | service1/main.go:112-240 | the response, the queue and the statsd stream are exactly those HandleSendMessage gives |
| Service2.Processed | shard/service2/main.go:314-317 | the data gets the prefix, Step2Complete is set and the step is 2; id, tag, StartTime and Step1Complete unchanged |
| Service2.Step2 | shard/service2/main.go:192-438 | the disposition is decided by the body, the exact `invalid_data` tag and the send outcome alone; the input is deleted unless the marshal or the send fails; one message is forwarded exactly on success, with the processed item and its attributes |
| Service2.MalformedOnlyCounted | shard/service2/main.go:197-216 | an undecodable body is deleted, nothing is sent, and only the unmarshal error is counted |
| Service2.Step1TimingOnlyWhenParsed | shard/service2/main.go:263-267 | the step1→step2 timing is emitted, as the time since Step1Complete, exactly when that stamp parses |
| Service2.Under50msIffFast | shard/service2/main.go:322-324 | `under_50ms` is counted exactly on the processing path when the step took at most 50 ms |
| Service2.ShortCircuitCounters | shard/service2/main.go:270-307 | a short-circuit counts the inherited error, the inherited SLI error and `failed.step2` exactly once each, and neither success nor `under_50ms` |
| Service2.ProcessingTotalCount | shard/service2/main.go:303-425 | `sli.processing.total` is counted 0 times for a malformed body, twice after a failed send, and once otherwise |
| Service2.EmitStep1Timing | shard/service2/main.go:263-267 | the stream gains the step1→step2 timing exactly when Step1Complete parses |
| Service2.EmitProcessingStats | shard/service2/main.go:319-334 | the stream gains the processing-path SLI and business calls in order |
| Service2.ShortCircuit | shard/service2/main.go:270-307 | the input loses the item's receipt handle, and the stream gains the inherited-error calls |
| Service2.Forward | shard/service2/main.go:362-438 | the output gains the item and the input loses it exactly on a successful send; a failed send counts three errors; a marshal failure changes nothing |
| Service2.ProcessStep2Message | shard/service2/main.go:192-448 | both queues and the stream change exactly as Step2's effects say |
| Service2.ConsumeFromStep1 | shard/service2/main.go:160-190 | after any script of polls the state is the fold of the one-turn function; the time paused is 5 s per receive error |
| Service2.ReceiveErrorsOnlyCounted | shard/service2/main.go:171-184 | receive errors never end the loop or change the queues; without them every other call is the same, and each adds one `errors.sqs.receive` |
| Service2.FailedForwardIsRedelivered | shard/service2/main.go:376-427 | an item whose marshal or send fails stays at the head of queue-step-1 and nothing is forwarded |
| Service2.HandledItemLeavesQueue | shard/service2/main.go:208-438 | a malformed, short-circuited or forwarded item leaves queue-step-1 in the same turn, and the rest of the queue stays, even a message with the same receipt handle |
| Service2.ForwardedCorrelation | shard/service2/main.go:218-374 | the forwarded body keeps its own id; the `correlation-id` attribute carries the non-empty id used unless the carrier overrides it |
| Service3.Step3 | service3/main.go:119-228 | stage 3 sends nothing; an undecodable body makes no metric call and is not deleted; every decoded item is deleted |
| Service3.CompletedOncePerItem | service3/main.go:198-222 | every decoded item counts `sli.processing.success` once and `completed` once; an undecodable one counts neither |
| Service3.ErrorTypeIgnored | service3/main.go:119-228 | the error tag has no effect on what stage 3 does |
| Service3.HandOffOnlyWhenStamped | service3/main.go:170-174 | the step2→step3 timing is emitted, from Step2Complete to the start of the step, exactly when that stamp parses |
| Service3.Step1CalculatedNeedsTwoMilestones | service3/main.go:180-189 | the calculated step-1 duration is emitted exactly when StartTime and Step1Complete parse, and is their difference |
| Service3.Step2CalculatedNeedsAllMilestones | service3/main.go:180-195 | the calculated step-2 duration is emitted exactly when all three stamps parse, and is Step2Complete − Step1Complete |
| Service3.Under60msIffFast | service3/main.go:200-202 | `under_60ms` is counted exactly for a decoded item whose step took at most 60 ms |
| Service3.EndToEndTimedOnlyWhenStarted | service3/main.go:180-216 | `business.pipeline.end_to_end.duration` and `sli.pipeline.duration` are each timed exactly when StartTime parses, with the one value time.Since(StartTime) at the respective clock reading |
| Service3.EndToEndSampledOnce | service3/main.go:180-184 | when StartTime parses, exactly one `business.pipeline.end_to_end.duration` sample carries time.Since(StartTime) |
| Service3.PipelineDurationSampledOnce | service3/main.go:205-217 | when StartTime parses, exactly one `sli.pipeline.duration` sample carries time.Since(StartTime) |
| Service3.Step1CalculatedSampledOnce | service3/main.go:185-188 | when StartTime and Step1Complete parse, exactly one calculated step-1 sample carries their difference |
| Service3.Step2CalculatedSampledOnce | service3/main.go:190-193 | when all three stamps parse, exactly one calculated step-2 sample carries Step2Complete − Step1Complete |
| Service3.HandOffSampledOnce | service3/main.go:170-174 | when Step2Complete parses, exactly one step2→step3 sample carries the time from it to the start of the step |
| Service3.PipelineSliIffStart | service3/main.go:206-209 | `sli.pipeline.total` and `.success` are counted exactly when StartTime parses |
| Service3.PipelineThresholds | service3/main.go:206-215 | `under_300ms` and `under_1s` are counted exactly when StartTime parses and the end-to-end duration is within 300 ms, resp. 1 s |
| Service3.Under300msImpliesUnder1s | service3/main.go:210-215 | a pipeline counted under 300 ms is also counted under 1 s |
| Service3.EmitHandOffTiming | service3/main.go:170-174 | the stream gains the hand-off timing exactly when Step2Complete parses |
| Service3.EmitDerivedTimings | service3/main.go:180-195 | the stream gains the nested derived timings |
| Service3.EmitProcessingSli | service3/main.go:197-203 | the stream gains the final-processing SLI calls |
| Service3.EmitPipelineSli | service3/main.go:205-217 | the stream gains the end-to-end SLI calls when StartTime parses |
| Service3.EmitClosing | service3/main.go:219-222 | the stream gains the closing business calls |
| Service3.ProcessStep3Message | service3/main.go:119-228 | the queue and the stream change exactly as Step3's effects say |
| Service3.ConsumeFromStep2 | service3/main.go:100-117 | after any script of polls the state is the fold of the one-turn function |
| Service3.ReceiveErrorsInvisible | service3/main.go:109-111 | a receive error just re-polls: the script without its errors ends in the same state |
| Service3.DecodedHeadLeavesQueue | service3/main.go:224-228 | a decoded item leaves queue-step-2 in the turn it is polled, with stage 3's calls appended to the stream; the rest of the queue stays, even a message with the same receipt handle |
| Service3.MalformedHeadBlocks | service3/main.go:122-129 | an undecodable body is never deleted; since a poll serves the head message, one at the head of queue-step-2 means no later poll changes anything |
| EndToEnd.CorrelationSurvivesBothHops | shard/service2/main.go:218-374 | the id the client gets back is in the item's body and `correlation-id` attribute on both queues |
| EndToEnd.MilestonesAtStage3 | shard/service2/main.go:314-317 | stage 1 queues StartTime and Step1Complete with no Step2Complete; stage 2 relays all three with step 2 |
| EndToEnd.FirstTwoStages | shard/service2/main.go:186-188 | from empty queues, stage 2's poll takes stage 1's one item and leaves exactly the relayed item on queue-step-2 |
| EndToEnd.TraversalDrainsQueues | service3/main.go:224-228 | a clean request ends with both queues empty after one poll of each consumer |
| EndToEnd.TraversalCompletes | service3/main.go:222 | that traversal counts exactly one completion |
| EndToEnd.TraversalTimesEndToEnd | service3/main.go:180-216 | each end-to-end timer of that traversal has the one value measured from the StartTime stage 1 stamped, and exactly one sample carries it |
| EndToEnd.TraversalTimesSteps | service3/main.go:170-195 | the step-1, step-2 and step2→step3 timers of that traversal each have the one value measured from the stamps stages 1 and 2 set and the start of stage 3's step, and exactly one sample carries it |
| EndToEnd.TraversalStepsNonNegativeIffOrdered | service3/main.go:170-195 | each step duration that traversal times is non-negative exactly when the two clock readings it spans are in order; nothing in the code enforces that order |
| EndToEnd.InjectedErrorStopsAtStage2 | shard/service2/main.go:270-307 | an injected error is short-circuited at stage 2: queue-step-1 empties, nothing reaches queue-step-2, `failed.step2` is counted, and stage 3 has nothing to do |
| EndToEnd.FailedIngressNeverEnqueued | service1/main.go:186-222 | a failed ingress send answers 500 and queues nothing, so stage 2's poll changes nothing |

## Left out

- HTTP wiring: `main`, `ListenAndServe`, the routes and `homeHandler` are I/O with no decision logic. A request is its method and header map. `Header` is a plain map lookup, with no canonicalisation of header names and no multi-valued headers.
- Tracing: spans, `SetTag` calls and trace ids are a foreign library. The carrier is a string map. `tracer.Inject` is the carrier in the environment. The carrier stage 2 and stage 3 extract only parents a span, so the methods compute it and drop it.
- Logging: logrus calls are left out. So are the correlation id stage 3 computes with a fallback `uuid.New` (service3/main.go:131-134), since it reaches only logs and span tags.
- AWS configuration, queue URLs from the environment, `init()` and the statsd client setup are configuration. Which queue each method reaches is given by the `Queue` object passed to it. The URL appears only where stage 1 puts it into its send error (`Service1.QueueUrl`).
- JSON and time parsing: `json.Marshal`/`Unmarshal` are a `Body` that decodes or is `Malformed`, plus a marshal outcome. RFC 3339 parsing is a `Stamp` that is `Some(instant)` or `None`. The RFC 3339 text written by `Format` is not modelled.
- Clocks, sleeps and ids: `time.Sleep`, `time.Now`, `time.Since` and `uuid.New` are readings in the environment. The 20/30/40 ms simulated work is not modelled beyond the readings it produces.
- Concurrency: the consumer goroutines and their endless loops are finite scripts of polls. Context timeouts and long-poll waits are not modelled.
- Delete failures: the model assumes every `DeleteMessage` succeeds. Stage 2 checks each delete's error and only logs it (shard/service2/main.go:208-216, 291-299, 429-437). Stage 3 ignores the result of its delete altogether (service3/main.go:224-228). A delete that fails leaves the message on its queue to be received again. Stage 2 would then forward a duplicate of the item with a fresh Step2Complete, and stage 3 would count `business.pipeline.completed` and `sli.processing.success` for the same item a second time. `Service2.HandledItemLeavesQueue`, `Service3.DecodedHeadLeavesQueue`, `EndToEnd.TraversalDrainsQueues` and `EndToEnd.TraversalCompletes` hold only under this assumption.
- SQS semantics: ReceiveMessage hands out the message at the head of the queue and leaves it there. Visibility timeouts, and the order in which a real queue serves messages, are not modelled. Two consequences come from this abstraction, not from the code. A message stage 2 cannot forward is served again before any other (`Service2.FailedForwardIsRedelivered`). An undecodable body at the head of queue-step-2 holds up every later message (`Service3.MalformedHeadBlocks`). Real SQS would hide such a message for the visibility timeout and serve others meanwhile.
- Receipt handles: SQS issues a fresh handle on each receive, so a handle names one message. The model lets handles coincide, and a delete then removes the first queued message carrying the handle.
- Duration overflow: `time.Duration` is int64 nanoseconds, and durations here are unbounded integers.
- Runtime reflection: `fmt.Sprintf("%T", err)` is `Service1.TypeName`, which returns `*fmt.wrapError` for both errors sendToService2 builds. The stack-trace capture is left out.
- Behaviour kept as the code has it:
  - Stage 3 logs an undecodable body as "skipping" and returns without deleting it (service3/main.go:122-129). The message is therefore received again on every later delivery (`Service3.Step3`). Stage 2 deletes such a message "to prevent infinite reprocessing" (shard/service2/main.go:208-216); stage 3 has no such delete.
  - Stage 3 reads the error tag only to log it (service3/main.go:238). It counts an item tagged `invalid_data` as a success and a completion (`Service3.ErrorTypeIgnored`), whereas stage 2 treats the same tag as an inherited failure that "will not be forwarded to step3" (shard/service2/main.go:269-299).
  - Stage 2 short-circuits only the exact tag `invalid_data` (shard/service2/main.go:270). An item carrying any other non-empty tag is processed and forwarded like a clean one.
  - Stage 2 overwrites rather than adds: it sets Step2Complete to its own `time.Now()` reading and CurrentStep to 2 whatever the decoded item already carries (shard/service2/main.go:316-317, `Service2.Processed`). An item that already has a Step2Complete, or a later step, loses it.
  - Milestone order: StartTime and Step1Complete are `time.Now()` readings on stage 1 (service1/main.go:144, 167), and Step2Complete is one on stage 2 (shard/service2/main.go:316). No stage checks that they are in order. The model leaves the readings unconstrained, so the durations derived from them may be negative. `EndToEnd.TraversalStepsNonNegativeIffOrdered` shows that each calculated step duration is non-negative exactly when its two readings are in order.
- Loop variables: `BuildAttributes` (`Carrier.BuildAttributes`) gives each carrier entry its own value. That holds for the `&value` taken inside the range loops (service1/main.go:282-287, shard/service2/main.go:369-374) only with the per-iteration loop variables of Go 1.22 and later; with older Go every entry would point at the last value.
