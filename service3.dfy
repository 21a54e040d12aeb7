/** Stage 3 (service3): the sink. It consumes queue-step-2, derives the
    pipeline's timings from the milestones the work item carries, counts the
    completion and deletes the message. */
module Service3 {
  import opened Pipeline
  import opened Carrier
  import opened Transport

  const Step2ToStep3 := Metric("business.pipeline.step2_to_step3.duration", ["service:service3"])
  const EndToEnd := Metric("business.pipeline.end_to_end.duration", ["service:service3"])
  const Step1Calculated := Metric("business.pipeline.step1.calculated_duration", ["service:service3"])
  const Step2Calculated := Metric("business.pipeline.step2.calculated_duration", ["service:service3"])
  const ProcessingTotal := Metric("sli.processing.total", ["service:service3", "operation:final_processing"])
  const ProcessingSuccess := Metric("sli.processing.success", ["service:service3", "operation:final_processing"])
  const Under60ms := Metric("sli.latency.under_60ms", ["service:service3"])
  const ProcessingTime := Metric("sli.processing_time", ["service:service3", "operation:final_processing"])
  const PipelineTotal := Metric("sli.pipeline.total", ["pipeline:multi_service"])
  const PipelineSuccess := Metric("sli.pipeline.success", ["pipeline:multi_service"])
  const PipelineUnder300ms := Metric("sli.pipeline.under_300ms", ["pipeline:multi_service"])
  const PipelineUnder1s := Metric("sli.pipeline.under_1s", ["pipeline:multi_service"])
  const PipelineDuration := Metric("sli.pipeline.duration", ["pipeline:multi_service"])
  const Step3Duration := Metric("business.pipeline.step3.duration", ["service:service3"])
  const MessagesStep3 := Metric("business.pipeline.messages.step3", ["service:service3"])
  const Completed := Metric("business.pipeline.completed", ["service:service3"])

  /** The clock readings the handling of one message sees: when it starts,
      after the simulated work, and at the two time.Since(startTime) calls. */
  datatype Env = Env(step3Start: Nanos, workDone: Nanos, endToEndClock: Nanos, sliClock: Nanos)

  /** The step-3 duration, time.Since(step3Start) taken once the work is done. */
  function Elapsed(env: Env): Nanos {
    Since(env.workDone, env.step3Start)
  }

  /** The step2 -> step3 hand-off timing, emitted when Step2Complete parses. */
  function HandOffTiming(m: PipelineMessage, step3Start: Nanos): seq<Stat> {
    if m.pipeline.step2Complete.Some?
    then [TimerSample(Step2ToStep3, Sub(step3Start, m.pipeline.step2Complete.value))]
    else []
  }

  /** The timings derived from the milestones: end-to-end when StartTime parses,
      then step 1 when Step1Complete parses too, then step 2 when all three do. */
  function DerivedTimings(p: Milestones, clock: Nanos): seq<Stat> {
    if p.startTime.None? then []
    else
      [TimerSample(EndToEnd, Since(clock, p.startTime.value))]
      + if p.step1Complete.None? then []
        else
          [TimerSample(Step1Calculated, Sub(p.step1Complete.value, p.startTime.value))]
          + if p.step2Complete.None? then []
            else [TimerSample(Step2Calculated, Sub(p.step2Complete.value, p.step1Complete.value))]
  }

  /** The final-processing SLI calls for a step that took d. */
  function ProcessingSli(d: Nanos): seq<Stat> {
    [CounterIncr(ProcessingTotal), CounterIncr(ProcessingSuccess)]
    + (if d <= 60 * Millisecond then [CounterIncr(Under60ms)] else [])
    + [TimerSample(ProcessingTime, d)]
  }

  /** The end-to-end SLI calls, made when StartTime parses. */
  function PipelineSli(p: Milestones, clock: Nanos): seq<Stat> {
    if p.startTime.None? then []
    else
      var e := Since(clock, p.startTime.value);
      [CounterIncr(PipelineTotal), CounterIncr(PipelineSuccess)]
      + (if e <= 300 * Millisecond then [CounterIncr(PipelineUnder300ms)] else [])
      + (if e <= Second then [CounterIncr(PipelineUnder1s)] else [])
      + [TimerSample(PipelineDuration, e)]
  }

  /** The business calls that close the step. */
  function Closing(d: Nanos): seq<Stat> {
    [TimerSample(Step3Duration, d), CounterIncr(MessagesStep3), CounterIncr(Completed)]
  }

  /** processStep3Message on one received message. */
  function Step3(msg: QueueMessage, env: Env): (e: Effects)
    // stage 3 never sends anything
    ensures e.sent == []
    // a body that does not decode is skipped: no statsd call, and it is not deleted
    ensures msg.body.Malformed? <==> e.stats == []
    ensures e.deleted <==> msg.body.Json?
  {
    match msg.body
    case Malformed => Effects(false, [], [])
    case Json(m) =>
      var d := Elapsed(env);
      Effects(true, [],
              HandOffTiming(m, env.step3Start) + DerivedTimings(m.pipeline, env.endToEndClock)
              + ProcessingSli(d) + PipelineSli(m.pipeline, env.sliClock) + Closing(d))
  }

  /** Where the increments of `completed` and `sli.processing.success` come from:
      each is made by exactly one piece of the step. */
  lemma CompletedPieces(m: PipelineMessage, env: Env)
    ensures CounterIncr(Completed) !in HandOffTiming(m, env.step3Start)
    ensures CounterIncr(Completed) !in DerivedTimings(m.pipeline, env.endToEndClock)
    ensures CounterIncr(Completed) !in ProcessingSli(Elapsed(env))
    ensures CounterIncr(Completed) !in PipelineSli(m.pipeline, env.sliClock)
    ensures Incrs(Closing(Elapsed(env)), Completed) == 1
  {
  }

  lemma SuccessPieces(m: PipelineMessage, env: Env)
    ensures CounterIncr(ProcessingSuccess) !in HandOffTiming(m, env.step3Start)
    ensures CounterIncr(ProcessingSuccess) !in DerivedTimings(m.pipeline, env.endToEndClock)
    ensures Incrs(ProcessingSli(Elapsed(env)), ProcessingSuccess) == 1
    ensures CounterIncr(ProcessingSuccess) !in PipelineSli(m.pipeline, env.sliClock)
    ensures CounterIncr(ProcessingSuccess) !in Closing(Elapsed(env))
  {
  }

  /** The statsd calls of a decoded item, piece by piece. */
  lemma Step3Pieces(msg: QueueMessage, env: Env)
    requires msg.body.Json?
    ensures var m, d := msg.body.message, Elapsed(env);
      Step3(msg, env).stats
      == HandOffTiming(m, env.step3Start) + DerivedTimings(m.pipeline, env.endToEndClock)
         + ProcessingSli(d) + PipelineSli(m.pipeline, env.sliClock) + Closing(d)
  {
  }

  lemma CompletedOnce(msg: QueueMessage, env: Env)
    requires msg.body.Json?
    ensures Incrs(Step3(msg, env).stats, Completed) == 1
  {
    var m, d := msg.body.message, Elapsed(env);
    Step3Pieces(msg, env);
    CompletedPieces(m, env);
    IncrsFromOnePiece(HandOffTiming(m, env.step3Start), DerivedTimings(m.pipeline, env.endToEndClock), ProcessingSli(d),
                      PipelineSli(m.pipeline, env.sliClock), Closing(d), Completed, 4);
  }

  lemma SucceededOnce(msg: QueueMessage, env: Env)
    requires msg.body.Json?
    ensures Incrs(Step3(msg, env).stats, ProcessingSuccess) == 1
  {
    var m, d := msg.body.message, Elapsed(env);
    Step3Pieces(msg, env);
    SuccessPieces(m, env);
    IncrsFromOnePiece(HandOffTiming(m, env.step3Start), DerivedTimings(m.pipeline, env.endToEndClock), ProcessingSli(d),
                      PipelineSli(m.pipeline, env.sliClock), Closing(d), ProcessingSuccess, 2);
  }

  /** Every decoded item counts one success and one completion, whatever its
      milestones and its error tag; a skipped one counts neither. */
  lemma CompletedOncePerItem(msg: QueueMessage, env: Env)
    ensures Incrs(Step3(msg, env).stats, Completed) == if msg.body.Json? then 1 else 0
    ensures Incrs(Step3(msg, env).stats, ProcessingSuccess) == if msg.body.Json? then 1 else 0
  {
    if msg.body.Json? {
      CompletedOnce(msg, env);
      SucceededOnce(msg, env);
    }
  }

  /** Stage 3 does not look at ErrorType: an item handed on with `invalid_data`
      is handled, counted as a success and completed exactly like a clean one. */
  lemma ErrorTypeIgnored(handle: string, m: PipelineMessage, attrs: Attributes, errorType: string, env: Env)
    ensures Step3(QueueMessage(handle, Json(m.(errorType := errorType)), attrs), env)
         == Step3(QueueMessage(handle, Json(m), attrs), env)
  {
  }

  /** A pipeline under 300 ms is also counted under 1 s. */
  lemma Under300msImpliesUnder1s(msg: QueueMessage, env: Env)
    requires CounterIncr(PipelineUnder300ms) in Step3(msg, env).stats
    ensures CounterIncr(PipelineUnder1s) in Step3(msg, env).stats
  {
    var m, d := msg.body.message, Elapsed(env);
    var a, b, k := HandOffTiming(m, env.step3Start), DerivedTimings(m.pipeline, env.endToEndClock), ProcessingSli(d);
    var p, z := PipelineSli(m.pipeline, env.sliClock), Closing(d);
    Step3Pieces(msg, env);
    PipelineSliPieces(m, env);
    InOnePiece(a, b, k, p, z, CounterIncr(PipelineUnder300ms), 3);
    InOnePiece(a, b, k, p, z, CounterIncr(PipelineUnder1s), 3);
  }

  /** The end-to-end SLI counters are made by the end-to-end piece alone, and
      there `under_300ms` implies `under_1s`. */
  lemma PipelineSliPieces(m: PipelineMessage, env: Env)
    ensures var d := Elapsed(env);
      && CounterIncr(PipelineUnder300ms) !in HandOffTiming(m, env.step3Start)
      && CounterIncr(PipelineUnder300ms) !in DerivedTimings(m.pipeline, env.endToEndClock)
      && CounterIncr(PipelineUnder300ms) !in ProcessingSli(d)
      && CounterIncr(PipelineUnder300ms) !in Closing(d)
      && CounterIncr(PipelineUnder1s) !in HandOffTiming(m, env.step3Start)
      && CounterIncr(PipelineUnder1s) !in DerivedTimings(m.pipeline, env.endToEndClock)
      && CounterIncr(PipelineUnder1s) !in ProcessingSli(d)
      && CounterIncr(PipelineUnder1s) !in Closing(d)
    ensures CounterIncr(PipelineUnder300ms) in PipelineSli(m.pipeline, env.sliClock)
        ==> CounterIncr(PipelineUnder1s) in PipelineSli(m.pipeline, env.sliClock)
  {
  }

  /** The end-to-end SLI is counted exactly when StartTime parses. */
  lemma PipelineSliIffStart(msg: QueueMessage, env: Env)
    requires msg.body.Json?
    ensures CounterIncr(PipelineTotal) in Step3(msg, env).stats <==> msg.body.message.pipeline.startTime.Some?
    ensures CounterIncr(PipelineSuccess) in Step3(msg, env).stats <==> msg.body.message.pipeline.startTime.Some?
  {
  }

  /** The step-2 calculated duration is emitted only when all three milestones
      parse, and then it is their difference. */
  lemma Step2CalculatedNeedsAllMilestones(msg: QueueMessage, env: Env)
    ensures TimedValues(Step3(msg, env).stats, Step2Calculated)
         == if msg.body.Json? && msg.body.message.pipeline.startTime.Some?
               && msg.body.message.pipeline.step1Complete.Some? && msg.body.message.pipeline.step2Complete.Some?
            then {Sub(msg.body.message.pipeline.step2Complete.value, msg.body.message.pipeline.step1Complete.value)}
            else {}
  {
    if msg.body.Json? {
      Step2CalculatedOfDecoded(msg, env);
      DerivedStep2Timing(msg.body.message.pipeline, env.endToEndClock);
    } else {
      assert Step3(msg, env).stats == [];
    }
  }

  lemma Step2CalculatedOfDecoded(msg: QueueMessage, env: Env)
    requires msg.body.Json?
    ensures var p := msg.body.message.pipeline;
      TimedValues(Step3(msg, env).stats, Step2Calculated)
      == TimedValues(DerivedTimings(p, env.endToEndClock), Step2Calculated)
  {
    var m, d := msg.body.message, Elapsed(env);
    var a, b, k := HandOffTiming(m, env.step3Start), DerivedTimings(m.pipeline, env.endToEndClock), ProcessingSli(d);
    var p, z := PipelineSli(m.pipeline, env.sliClock), Closing(d);
    Step3Pieces(msg, env);
    Step2CalculatedPieces(m, env);
    TimedFromOnePiece(a, b, k, p, z, Step2Calculated, 1);
    assert [a, b, k, p, z][1] == b;
  }

  /** Only the derived timings time the step-2 calculated duration. */
  lemma Step2CalculatedPieces(m: PipelineMessage, env: Env)
    ensures var d := Elapsed(env);
      && TimedValues(HandOffTiming(m, env.step3Start), Step2Calculated) == {}
      && TimedValues(ProcessingSli(d), Step2Calculated) == {}
      && TimedValues(PipelineSli(m.pipeline, env.sliClock), Step2Calculated) == {}
      && TimedValues(Closing(d), Step2Calculated) == {}
  {
  }

  lemma DerivedStep2Timing(p: Milestones, clock: Nanos)
    ensures TimedValues(DerivedTimings(p, clock), Step2Calculated)
         == if p.startTime.Some? && p.step1Complete.Some? && p.step2Complete.Some?
            then {Sub(p.step2Complete.value, p.step1Complete.value)} else {}
    ensures p.startTime.Some? && p.step1Complete.Some? && p.step2Complete.Some? ==>
      multiset(DerivedTimings(p, clock))[TimerSample(Step2Calculated, Sub(p.step2Complete.value, p.step1Complete.value))] == 1
  {
  }

  /** The step2 -> step3 hand-off is timed only when Step2Complete parses, as
      the time from that stamp to the start of the step. */
  lemma HandOffOnlyWhenStamped(msg: QueueMessage, env: Env)
    ensures TimedValues(Step3(msg, env).stats, Step2ToStep3)
         == if msg.body.Json? && msg.body.message.pipeline.step2Complete.Some?
            then {Sub(env.step3Start, msg.body.message.pipeline.step2Complete.value)}
            else {}
  {
    if msg.body.Json? {
      var m, d := msg.body.message, Elapsed(env);
      var a, b, k := HandOffTiming(m, env.step3Start), DerivedTimings(m.pipeline, env.endToEndClock), ProcessingSli(d);
      var p, z := PipelineSli(m.pipeline, env.sliClock), Closing(d);
      Step3Pieces(msg, env);
      HandOffPieces(m, env);
      TimedFromOnePiece(a, b, k, p, z, Step2ToStep3, 0);
      assert [a, b, k, p, z][0] == a;
    } else {
      assert Step3(msg, env).stats == [];
    }
  }

  /** Only the hand-off piece times Step2ToStep3. */
  lemma HandOffPieces(m: PipelineMessage, env: Env)
    ensures var d := Elapsed(env);
      && TimedValues(HandOffTiming(m, env.step3Start), Step2ToStep3)
         == (if m.pipeline.step2Complete.Some? then {Sub(env.step3Start, m.pipeline.step2Complete.value)} else {})
      && TimedValues(DerivedTimings(m.pipeline, env.endToEndClock), Step2ToStep3) == {}
      && TimedValues(ProcessingSli(d), Step2ToStep3) == {}
      && TimedValues(PipelineSli(m.pipeline, env.sliClock), Step2ToStep3) == {}
      && TimedValues(Closing(d), Step2ToStep3) == {}
  {
  }

  /** The step-1 calculated duration is emitted only when StartTime and
      Step1Complete both parse, and then it is their difference. */
  lemma Step1CalculatedNeedsTwoMilestones(msg: QueueMessage, env: Env)
    ensures TimedValues(Step3(msg, env).stats, Step1Calculated)
         == if msg.body.Json? && msg.body.message.pipeline.startTime.Some?
               && msg.body.message.pipeline.step1Complete.Some?
            then {Sub(msg.body.message.pipeline.step1Complete.value, msg.body.message.pipeline.startTime.value)}
            else {}
  {
    if msg.body.Json? {
      var m, d := msg.body.message, Elapsed(env);
      var a, b, k := HandOffTiming(m, env.step3Start), DerivedTimings(m.pipeline, env.endToEndClock), ProcessingSli(d);
      var p, z := PipelineSli(m.pipeline, env.sliClock), Closing(d);
      Step3Pieces(msg, env);
      Step1CalculatedPieces(m, env);
      TimedFromOnePiece(a, b, k, p, z, Step1Calculated, 1);
      assert [a, b, k, p, z][1] == b;
      DerivedStep1Timing(m.pipeline, env.endToEndClock);
    } else {
      assert Step3(msg, env).stats == [];
    }
  }

  /** Only the derived timings time the step-1 calculated duration. */
  lemma Step1CalculatedPieces(m: PipelineMessage, env: Env)
    ensures var d := Elapsed(env);
      && TimedValues(HandOffTiming(m, env.step3Start), Step1Calculated) == {}
      && TimedValues(ProcessingSli(d), Step1Calculated) == {}
      && TimedValues(PipelineSli(m.pipeline, env.sliClock), Step1Calculated) == {}
      && TimedValues(Closing(d), Step1Calculated) == {}
  {
  }

  lemma DerivedStep1Timing(p: Milestones, clock: Nanos)
    ensures TimedValues(DerivedTimings(p, clock), Step1Calculated)
         == if p.startTime.Some? && p.step1Complete.Some?
            then {Sub(p.step1Complete.value, p.startTime.value)} else {}
    ensures p.startTime.Some? && p.step1Complete.Some? ==>
      multiset(DerivedTimings(p, clock))[TimerSample(Step1Calculated, Sub(p.step1Complete.value, p.startTime.value))] == 1
  {
  }

  /** Both end-to-end durations are timed exactly when StartTime parses: the
      business one from the derived-timings clock reading, the SLI one from the
      later reading, each as the time since StartTime. */
  lemma EndToEndTimedOnlyWhenStarted(msg: QueueMessage, env: Env)
    ensures TimedValues(Step3(msg, env).stats, EndToEnd)
         == if msg.body.Json? && msg.body.message.pipeline.startTime.Some?
            then {Since(env.endToEndClock, msg.body.message.pipeline.startTime.value)}
            else {}
    ensures TimedValues(Step3(msg, env).stats, PipelineDuration)
         == if msg.body.Json? && msg.body.message.pipeline.startTime.Some?
            then {Since(env.sliClock, msg.body.message.pipeline.startTime.value)}
            else {}
  {
    if msg.body.Json? {
      BusinessEndToEndOfDecoded(msg, env);
      PipelineDurationOfDecoded(msg, env);
    } else {
      assert Step3(msg, env).stats == [];
    }
  }

  lemma BusinessEndToEndOfDecoded(msg: QueueMessage, env: Env)
    requires msg.body.Json?
    ensures TimedValues(Step3(msg, env).stats, EndToEnd)
         == if msg.body.message.pipeline.startTime.Some?
            then {Since(env.endToEndClock, msg.body.message.pipeline.startTime.value)}
            else {}
  {
    var m, d := msg.body.message, Elapsed(env);
    var a, b, k := HandOffTiming(m, env.step3Start), DerivedTimings(m.pipeline, env.endToEndClock), ProcessingSli(d);
    var p, z := PipelineSli(m.pipeline, env.sliClock), Closing(d);
    Step3Pieces(msg, env);
    BusinessEndToEndPieces(m, env);
    TimedFromOnePiece(a, b, k, p, z, EndToEnd, 1);
    assert [a, b, k, p, z][1] == b;
    DerivedEndToEndTiming(m.pipeline, env.endToEndClock);
  }

  lemma PipelineDurationOfDecoded(msg: QueueMessage, env: Env)
    requires msg.body.Json?
    ensures TimedValues(Step3(msg, env).stats, PipelineDuration)
         == if msg.body.message.pipeline.startTime.Some?
            then {Since(env.sliClock, msg.body.message.pipeline.startTime.value)}
            else {}
  {
    var m, d := msg.body.message, Elapsed(env);
    var a, b, k := HandOffTiming(m, env.step3Start), DerivedTimings(m.pipeline, env.endToEndClock), ProcessingSli(d);
    var p, z := PipelineSli(m.pipeline, env.sliClock), Closing(d);
    Step3Pieces(msg, env);
    PipelineDurationPieces(m, env);
    TimedFromOnePiece(a, b, k, p, z, PipelineDuration, 3);
    assert [a, b, k, p, z][3] == p;
    PipelineDurationTiming(m.pipeline, env.sliClock);
  }

  /** Only the derived timings time the business end-to-end duration. */
  lemma BusinessEndToEndPieces(m: PipelineMessage, env: Env)
    ensures var d := Elapsed(env);
      && TimedValues(HandOffTiming(m, env.step3Start), EndToEnd) == {}
      && TimedValues(ProcessingSli(d), EndToEnd) == {}
      && TimedValues(PipelineSli(m.pipeline, env.sliClock), EndToEnd) == {}
      && TimedValues(Closing(d), EndToEnd) == {}
  {
  }

  /** Only the end-to-end SLI piece times `sli.pipeline.duration`. */
  lemma PipelineDurationPieces(m: PipelineMessage, env: Env)
    ensures var d := Elapsed(env);
      && TimedValues(HandOffTiming(m, env.step3Start), PipelineDuration) == {}
      && TimedValues(DerivedTimings(m.pipeline, env.endToEndClock), PipelineDuration) == {}
      && TimedValues(ProcessingSli(d), PipelineDuration) == {}
      && TimedValues(Closing(d), PipelineDuration) == {}
  {
  }

  lemma DerivedEndToEndTiming(p: Milestones, clock: Nanos)
    ensures TimedValues(DerivedTimings(p, clock), EndToEnd)
         == if p.startTime.Some? then {Since(clock, p.startTime.value)} else {}
    ensures p.startTime.Some? ==>
      multiset(DerivedTimings(p, clock))[TimerSample(EndToEnd, Since(clock, p.startTime.value))] == 1
  {
  }

  lemma PipelineDurationTiming(p: Milestones, clock: Nanos)
    ensures TimedValues(PipelineSli(p, clock), PipelineDuration)
         == if p.startTime.Some? then {Since(clock, p.startTime.value)} else {}
    ensures p.startTime.Some? ==>
      multiset(PipelineSli(p, clock))[TimerSample(PipelineDuration, Since(clock, p.startTime.value))] == 1
  {
  }

  /** A decoded item whose StartTime parses gets exactly one business
      end-to-end sample, the time since StartTime. */
  lemma EndToEndSampledOnce(msg: QueueMessage, env: Env)
    requires msg.body.Json? && msg.body.message.pipeline.startTime.Some?
    ensures multiset(Step3(msg, env).stats)[TimerSample(EndToEnd, Since(env.endToEndClock, msg.body.message.pipeline.startTime.value))] == 1
  {
    var m, d := msg.body.message, Elapsed(env);
    var a, b, k := HandOffTiming(m, env.step3Start), DerivedTimings(m.pipeline, env.endToEndClock), ProcessingSli(d);
    var p, z := PipelineSli(m.pipeline, env.sliClock), Closing(d);
    var v := Since(env.endToEndClock, m.pipeline.startTime.value);
    Step3Pieces(msg, env);
    BusinessEndToEndPieces(m, env);
    NotTimedNoSample(a, EndToEnd, v);
    NotTimedNoSample(k, EndToEnd, v);
    NotTimedNoSample(p, EndToEnd, v);
    NotTimedNoSample(z, EndToEnd, v);
    DerivedEndToEndTiming(m.pipeline, env.endToEndClock);
    CountFromOnePiece(a, b, k, p, z, TimerSample(EndToEnd, v), 1);
    assert [a, b, k, p, z][1] == b;
  }

  /** A decoded item whose StartTime parses gets exactly one
      `sli.pipeline.duration` sample, the time since StartTime. */
  lemma PipelineDurationSampledOnce(msg: QueueMessage, env: Env)
    requires msg.body.Json? && msg.body.message.pipeline.startTime.Some?
    ensures multiset(Step3(msg, env).stats)[TimerSample(PipelineDuration, Since(env.sliClock, msg.body.message.pipeline.startTime.value))] == 1
  {
    var m, d := msg.body.message, Elapsed(env);
    var a, b, k := HandOffTiming(m, env.step3Start), DerivedTimings(m.pipeline, env.endToEndClock), ProcessingSli(d);
    var p, z := PipelineSli(m.pipeline, env.sliClock), Closing(d);
    var v := Since(env.sliClock, m.pipeline.startTime.value);
    Step3Pieces(msg, env);
    PipelineDurationPieces(m, env);
    NotTimedNoSample(a, PipelineDuration, v);
    NotTimedNoSample(b, PipelineDuration, v);
    NotTimedNoSample(k, PipelineDuration, v);
    NotTimedNoSample(z, PipelineDuration, v);
    PipelineDurationTiming(m.pipeline, env.sliClock);
    CountFromOnePiece(a, b, k, p, z, TimerSample(PipelineDuration, v), 3);
    assert [a, b, k, p, z][3] == p;
  }

  /** A decoded item whose StartTime and Step1Complete parse gets exactly one
      step-1 calculated sample, their difference. */
  lemma Step1CalculatedSampledOnce(msg: QueueMessage, env: Env)
    requires msg.body.Json? && msg.body.message.pipeline.startTime.Some?
    requires msg.body.message.pipeline.step1Complete.Some?
    ensures var p := msg.body.message.pipeline;
      multiset(Step3(msg, env).stats)[TimerSample(Step1Calculated, Sub(p.step1Complete.value, p.startTime.value))] == 1
  {
    var m, d := msg.body.message, Elapsed(env);
    var a, b, k := HandOffTiming(m, env.step3Start), DerivedTimings(m.pipeline, env.endToEndClock), ProcessingSli(d);
    var p, z := PipelineSli(m.pipeline, env.sliClock), Closing(d);
    var v := Sub(m.pipeline.step1Complete.value, m.pipeline.startTime.value);
    Step3Pieces(msg, env);
    Step1CalculatedPieces(m, env);
    NotTimedNoSample(a, Step1Calculated, v);
    NotTimedNoSample(k, Step1Calculated, v);
    NotTimedNoSample(p, Step1Calculated, v);
    NotTimedNoSample(z, Step1Calculated, v);
    DerivedStep1Timing(m.pipeline, env.endToEndClock);
    CountFromOnePiece(a, b, k, p, z, TimerSample(Step1Calculated, v), 1);
    assert [a, b, k, p, z][1] == b;
  }

  /** A decoded item whose three milestones parse gets exactly one step-2
      calculated sample, Step2Complete less Step1Complete. */
  lemma Step2CalculatedSampledOnce(msg: QueueMessage, env: Env)
    requires msg.body.Json? && msg.body.message.pipeline.startTime.Some?
    requires msg.body.message.pipeline.step1Complete.Some? && msg.body.message.pipeline.step2Complete.Some?
    ensures var p := msg.body.message.pipeline;
      multiset(Step3(msg, env).stats)[TimerSample(Step2Calculated, Sub(p.step2Complete.value, p.step1Complete.value))] == 1
  {
    var m, d := msg.body.message, Elapsed(env);
    var a, b, k := HandOffTiming(m, env.step3Start), DerivedTimings(m.pipeline, env.endToEndClock), ProcessingSli(d);
    var p, z := PipelineSli(m.pipeline, env.sliClock), Closing(d);
    var v := Sub(m.pipeline.step2Complete.value, m.pipeline.step1Complete.value);
    Step3Pieces(msg, env);
    Step2CalculatedPieces(m, env);
    NotTimedNoSample(a, Step2Calculated, v);
    NotTimedNoSample(k, Step2Calculated, v);
    NotTimedNoSample(p, Step2Calculated, v);
    NotTimedNoSample(z, Step2Calculated, v);
    DerivedStep2Timing(m.pipeline, env.endToEndClock);
    CountFromOnePiece(a, b, k, p, z, TimerSample(Step2Calculated, v), 1);
    assert [a, b, k, p, z][1] == b;
  }

  /** A decoded item whose Step2Complete parses gets exactly one hand-off
      sample, from that stamp to the start of the step. */
  lemma HandOffSampledOnce(msg: QueueMessage, env: Env)
    requires msg.body.Json? && msg.body.message.pipeline.step2Complete.Some?
    ensures multiset(Step3(msg, env).stats)[TimerSample(Step2ToStep3, Sub(env.step3Start, msg.body.message.pipeline.step2Complete.value))] == 1
  {
    var m, d := msg.body.message, Elapsed(env);
    var a, b, k := HandOffTiming(m, env.step3Start), DerivedTimings(m.pipeline, env.endToEndClock), ProcessingSli(d);
    var p, z := PipelineSli(m.pipeline, env.sliClock), Closing(d);
    var v := Sub(env.step3Start, m.pipeline.step2Complete.value);
    Step3Pieces(msg, env);
    HandOffPieces(m, env);
    NotTimedNoSample(b, Step2ToStep3, v);
    NotTimedNoSample(k, Step2ToStep3, v);
    NotTimedNoSample(p, Step2ToStep3, v);
    NotTimedNoSample(z, Step2ToStep3, v);
    assert multiset(a)[TimerSample(Step2ToStep3, v)] == 1;
    CountFromOnePiece(a, b, k, p, z, TimerSample(Step2ToStep3, v), 0);
    assert [a, b, k, p, z][0] == a;
  }

  /** `sli.latency.under_60ms` is counted exactly for a decoded item whose step took at most 60 ms. */
  lemma Under60msIffFast(msg: QueueMessage, env: Env)
    ensures CounterIncr(Under60ms) in Step3(msg, env).stats
        <==> msg.body.Json? && Elapsed(env) <= 60 * Millisecond
  {
    if msg.body.Json? {
      var m, d := msg.body.message, Elapsed(env);
      var a, b, k := HandOffTiming(m, env.step3Start), DerivedTimings(m.pipeline, env.endToEndClock), ProcessingSli(d);
      var p, z := PipelineSli(m.pipeline, env.sliClock), Closing(d);
      Step3Pieces(msg, env);
      Under60msPieces(m, env);
      InOnePiece(a, b, k, p, z, CounterIncr(Under60ms), 2);
    }
  }

  /** Only the final-processing SLI piece counts `under_60ms`, and it does so when the step took at most 60 ms. */
  lemma Under60msPieces(m: PipelineMessage, env: Env)
    ensures var d := Elapsed(env);
      && CounterIncr(Under60ms) !in HandOffTiming(m, env.step3Start)
      && CounterIncr(Under60ms) !in DerivedTimings(m.pipeline, env.endToEndClock)
      && (CounterIncr(Under60ms) in ProcessingSli(d) <==> d <= 60 * Millisecond)
      && CounterIncr(Under60ms) !in PipelineSli(m.pipeline, env.sliClock)
      && CounterIncr(Under60ms) !in Closing(d)
  {
  }

  /** With StartTime unparseable none of the end-to-end SLI counters is touched;
      with it parsed, `under_300ms` and `under_1s` follow the end-to-end duration. */
  lemma PipelineThresholds(msg: QueueMessage, env: Env)
    requires msg.body.Json?
    ensures var p := msg.body.message.pipeline;
      && (CounterIncr(PipelineUnder300ms) in Step3(msg, env).stats
          <==> p.startTime.Some? && Since(env.sliClock, p.startTime.value) <= 300 * Millisecond)
      && (CounterIncr(PipelineUnder1s) in Step3(msg, env).stats
          <==> p.startTime.Some? && Since(env.sliClock, p.startTime.value) <= Second)
  {
    var m, d := msg.body.message, Elapsed(env);
    var a, b, k := HandOffTiming(m, env.step3Start), DerivedTimings(m.pipeline, env.endToEndClock), ProcessingSli(d);
    var p, z := PipelineSli(m.pipeline, env.sliClock), Closing(d);
    Step3Pieces(msg, env);
    PipelineSliPieces(m, env);
    InOnePiece(a, b, k, p, z, CounterIncr(PipelineUnder300ms), 3);
    InOnePiece(a, b, k, p, z, CounterIncr(PipelineUnder1s), 3);
  }

  method EmitHandOffTiming(m: PipelineMessage, step3Start: Nanos, sink: Statsd)
    modifies sink
    ensures sink.stream == old(sink.stream) + HandOffTiming(m, step3Start)
  {
    if m.pipeline.step2Complete.Some? {
      var step2ToStep3Duration := Sub(step3Start, m.pipeline.step2Complete.value);
      sink.Timing(Step2ToStep3, step2ToStep3Duration);
    }
  }

  method EmitDerivedTimings(p: Milestones, clock: Nanos, sink: Statsd)
    modifies sink
    ensures sink.stream == old(sink.stream) + DerivedTimings(p, clock)
  {
    if p.startTime.Some? {
      sink.Timing(EndToEnd, Since(clock, p.startTime.value));
      if p.step1Complete.Some? {
        sink.Timing(Step1Calculated, Sub(p.step1Complete.value, p.startTime.value));
        if p.step2Complete.Some? {
          sink.Timing(Step2Calculated, Sub(p.step2Complete.value, p.step1Complete.value));
        }
      }
    }
  }

  method EmitProcessingSli(d: Nanos, sink: Statsd)
    modifies sink
    ensures sink.stream == old(sink.stream) + ProcessingSli(d)
  {
    sink.Incr(ProcessingTotal);
    sink.Incr(ProcessingSuccess);
    if d <= 60 * Millisecond {
      sink.Incr(Under60ms);
    }
    sink.Timing(ProcessingTime, d);
  }

  method EmitPipelineSli(p: Milestones, clock: Nanos, sink: Statsd)
    modifies sink
    ensures sink.stream == old(sink.stream) + PipelineSli(p, clock)
  {
    if p.startTime.Some? {
      var endToEndDuration := Since(clock, p.startTime.value);
      sink.Incr(PipelineTotal);
      sink.Incr(PipelineSuccess);
      if endToEndDuration <= 300 * Millisecond {
        sink.Incr(PipelineUnder300ms);
      }
      if endToEndDuration <= Second {
        sink.Incr(PipelineUnder1s);
      }
      sink.Timing(PipelineDuration, endToEndDuration);
    }
  }

  method EmitClosing(d: Nanos, sink: Statsd)
    modifies sink
    ensures sink.stream == old(sink.stream) + Closing(d)
  {
    sink.Timing(Step3Duration, d);
    sink.Incr(MessagesStep3);
    sink.Incr(Completed);
  }

  /** processStep3Message: the statsd calls in the order the handler makes
      them, then the delete. */
  method ProcessStep3Message(msg: QueueMessage, env: Env, input: Queue, sink: Statsd)
    modifies input, sink
    ensures input.messages == if Step3(msg, env).deleted then Without(old(input.messages), msg.receiptHandle)
                              else old(input.messages)
    ensures sink.stream == old(sink.stream) + Step3(msg, env).stats
  {
    if msg.body.Malformed? {
      return;
    }
    var message := msg.body.message;
    // the carrier only parents the tracing span
    var _ := ExtractCarrier(msg.attributes);
    ghost var s0 := sink.stream;
    EmitHandOffTiming(message, env.step3Start, sink);
    var step3Duration := Elapsed(env);
    EmitDerivedTimings(message.pipeline, env.endToEndClock, sink);
    EmitProcessingSli(step3Duration, sink);
    EmitPipelineSli(message.pipeline, env.sliClock, sink);
    EmitClosing(step3Duration, sink);
    Step3Pieces(msg, env);
    AppendFive(s0, HandOffTiming(message, env.step3Start), DerivedTimings(message.pipeline, env.endToEndClock),
               ProcessingSli(step3Duration), PipelineSli(message.pipeline, env.sliClock), Closing(step3Duration));
    input.Delete(msg.receiptHandle);
  }

  /** What stage 3 acts on: its input queue and the statsd stream. */
  datatype State = State(input: seq<QueueMessage>, stream: seq<Stat>)

  /** One turn of consumeFromStep2: a receive error is skipped without a trace. */
  function Poll(s: State, tick: Tick<Env>): State {
    match tick
    case ReceiveFailed => s
    case Polled(env) =>
      if s.input == [] then s
      else
        var e := Step3(s.input[0], env);
        State(if e.deleted then Without(s.input, s.input[0].receiptHandle) else s.input, s.stream + e.stats)
  }

  function Run(s: State, ticks: seq<Tick<Env>>): State {
    if ticks == [] then s
    else Poll(Run(s, ticks[..|ticks| - 1]), ticks[|ticks| - 1])
  }

  /** consumeFromStep2, over a finite prefix of its endless loop. */
  method ConsumeFromStep2(ticks: seq<Tick<Env>>, input: Queue, sink: Statsd)
    modifies input, sink
    ensures State(input.messages, sink.stream) == Run(State(old(input.messages), old(sink.stream)), ticks)
  {
    ghost var s0 := State(input.messages, sink.stream);
    for i := 0 to |ticks|
      invariant State(input.messages, sink.stream) == Run(s0, ticks[..i])
    {
      assert ticks[..i + 1][..i] == ticks[..i];
      var result := input.Receive(ticks[i].Polled?);
      match result
      case ReceiveError =>
      case NoMessage =>
      case Message(msg) =>
        ProcessStep3Message(msg, ticks[i].env, input, sink);
    }
    assert ticks[..|ticks|] == ticks;
  }

  /** Receive errors leave no trace at stage 3: the turns without them end in
      exactly the same state. */
  lemma {:induction false} ReceiveErrorsInvisible(s: State, ticks: seq<Tick<Env>>)
    ensures Run(s, ticks) == Run(s, Successes(ticks))
  {
    if ticks != [] {
      var init, t := ticks[..|ticks| - 1], ticks[|ticks| - 1];
      ReceiveErrorsInvisible(s, init);
      if t.Polled? {
        var si := Successes(init);
        assert (si + [t])[..|si|] == si;
      }
    }
  }

  /** A decoded item leaves queue-step-2 in the turn it is polled, and only
      it: a later message with the same receipt handle stays to be handled. */
  lemma DecodedHeadLeavesQueue(s: State, env: Env)
    requires s.input != [] && s.input[0].body.Json?
    ensures Poll(s, Polled(env)) == State(s.input[1..], s.stream + Step3(s.input[0], env).stats)
  {
  }

  /** A body that does not decode at the head of queue-step-2 is never deleted,
      so every later poll receives it again and the loop makes no progress:
      neither the queue nor the statsd stream ever changes. */
  lemma {:induction false} MalformedHeadBlocks(s: State, ticks: seq<Tick<Env>>)
    requires s.input != [] && s.input[0].body.Malformed?
    ensures Run(s, ticks) == s
  {
    if ticks != [] {
      MalformedHeadBlocks(s, ticks[..|ticks| - 1]);
    }
  }
}
