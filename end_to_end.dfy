/** The three stages composed: a request accepted by stage 1, relayed by
    stage 2 and completed by stage 3, and the ways the pipeline stops early. */
module EndToEnd {
  import opened Pipeline
  import opened Carrier
  import S1 = Service1
  import S2 = Service2
  import S3 = Service3

  /** The item stage 1 queues for a request whose send succeeds. */
  function Queued(r: S1.Request, e1: S1.Env): QueueMessage
    requires r.httpMethod == "POST" && e1.outcome == SendOk
  {
    S1.HandleSendMessage(r, e1).sent[0]
  }

  /** Both stages that hand the item on keep the id the request was accepted
      under, in the body and in the `correlation-id` attribute, so stage 3
      reads the id the client got back. */
  lemma CorrelationSurvivesBothHops(r: S1.Request, e1: S1.Env, e2: S2.Env, shard: string)
    requires r.httpMethod == "POST" && e1.outcome == SendOk && e1.generatedId != ""
    requires !S1.InjectError(r) && e2.outcome == SendOk
    requires CorrelationKey !in e1.carrier && CorrelationKey !in e2.carrierOut
    ensures var id := S1.HandleSendMessage(r, e1).response.body.correlationId;
      var item1 := Queued(r, e1);
      var item2 := S2.Step2(item1, e2, shard).effects.sent[0];
      && id != ""
      && item1.body.message.correlationId == id
      && StringValues(item1.attributes)[CorrelationKey] == id
      && item2.body.message.correlationId == id
      && StringValues(item2.attributes)[CorrelationKey] == id
  {
    var id := S1.HandleSendMessage(r, e1).response.body.correlationId;
    S1.CorrelationIdNeverEmpty(r, e1);
    CarrierAcrossHop(id, e1.carrier);
    var item1 := Queued(r, e1);
    assert S2.Step2(item1, e2, shard).disposition == S2.Forwarded;
    CarrierAcrossHop(CorrelationOf(id, e2.generatedId), e2.carrierOut);
  }

  /** The milestones the item carries into stage 3: the start and step-1
      stamps of stage 1, the step-2 stamp of stage 2, and step 2 current. */
  lemma MilestonesAtStage3(r: S1.Request, e1: S1.Env, e2: S2.Env, shard: string)
    requires r.httpMethod == "POST" && e1.outcome == SendOk
    requires !S1.InjectError(r) && e2.outcome == SendOk
    ensures Queued(r, e1).body.message.pipeline == Milestones(Some(e1.startStamp), Some(e1.step1Stamp), None, 1)
    ensures S2.Step2(Queued(r, e1), e2, shard).effects.sent[0].body.message.pipeline
         == Milestones(Some(e1.startStamp), Some(e1.step1Stamp), Some(e2.step2Stamp), 2)
  {
    assert S2.Step2(Queued(r, e1), e2, shard).disposition == S2.Forwarded;
  }

  /** Queue-step-1 after stage 1 has handled the request, starting empty. */
  function AfterStage1(r: S1.Request, e1: S1.Env): seq<QueueMessage> {
    S1.HandleSendMessage(r, e1).sent
  }

  /** Stage 2's world after one poll of that queue. */
  function AfterStage2(r: S1.Request, e1: S1.Env, e2: S2.Env, shard: string): World {
    S2.Poll(World(AfterStage1(r, e1), [], []), Polled(e2), shard)
  }

  /** Stage 3's state after one poll of what stage 2 queued. */
  function AfterStage3(r: S1.Request, e1: S1.Env, e2: S2.Env, e3: S3.Env, shard: string): S3.State {
    S3.Poll(S3.State(AfterStage2(r, e1, e2, shard).output, []), Polled(e3))
  }

  /** Relayed(r, e1, e2, shard) is the item stage 2 forwards for the request. */
  function Relayed(r: S1.Request, e1: S1.Env, e2: S2.Env, shard: string): QueueMessage
    requires r.httpMethod == "POST" && e1.outcome == SendOk
    requires !S1.InjectError(r) && e2.outcome == SendOk
  {
    S2.Step2(Queued(r, e1), e2, shard).effects.sent[0]
  }

  /** The first two stages: stage 1 queues one item, and stage 2's poll takes
      it off queue-step-1 and queues exactly the item it relays. */
  lemma FirstTwoStages(r: S1.Request, e1: S1.Env, e2: S2.Env, shard: string)
    requires r.httpMethod == "POST" && e1.outcome == SendOk
    requires !S1.InjectError(r) && e2.outcome == SendOk
    ensures AfterStage1(r, e1) == [Queued(r, e1)]
    ensures AfterStage2(r, e1, e2, shard)
         == World([], [Relayed(r, e1, e2, shard)], S2.Step2(Queued(r, e1), e2, shard).effects.stats)
  {
    var item1 := Queued(r, e1);
    assert AfterStage1(r, e1) == [item1];
    Stage2Relays(item1, e2, shard);
    var o2 := S2.Step2(item1, e2, shard).effects;
    assert o2.sent == [o2.sent[0]];
  }

  /** A request that goes all the way leaves both queues empty: starting from
      empty queues, stage 1 queues one item, stage 2 takes it off
      queue-step-1 and puts one item on queue-step-2, and stage 3 takes that
      off. */
  lemma TraversalDrainsQueues(r: S1.Request, e1: S1.Env, e2: S2.Env, e3: S3.Env, shard: string)
    requires r.httpMethod == "POST" && e1.outcome == SendOk
    requires !S1.InjectError(r) && e2.outcome == SendOk
    ensures |AfterStage1(r, e1)| == 1
    ensures AfterStage2(r, e1, e2, shard).input == [] && |AfterStage2(r, e1, e2, shard).output| == 1
    ensures AfterStage3(r, e1, e2, e3, shard).input == []
  {
    FirstTwoStages(r, e1, e2, shard);
    MilestonesAtStage3(r, e1, e2, shard);
    Stage3Completes(Relayed(r, e1, e2, shard), e3);
  }

  /** At the end of that traversal stage 3 has counted one completion. */
  lemma TraversalCompletes(r: S1.Request, e1: S1.Env, e2: S2.Env, e3: S3.Env, shard: string)
    requires r.httpMethod == "POST" && e1.outcome == SendOk
    requires !S1.InjectError(r) && e2.outcome == SendOk
    ensures Incrs(AfterStage3(r, e1, e2, e3, shard).stream, S3.Completed) == 1
  {
    FirstTwoStages(r, e1, e2, shard);
    MilestonesAtStage3(r, e1, e2, shard);
    Stage3Completes(Relayed(r, e1, e2, shard), e3);
    S3.CompletedOnce(Relayed(r, e1, e2, shard), e3);
  }

  /** That traversal times the pipeline end to end once in each form: the
      business duration and the SLI duration, each measured from the StartTime
      stage 1 stamped. Each timer has that one value, and exactly one sample
      carries it. */
  lemma TraversalTimesEndToEnd(r: S1.Request, e1: S1.Env, e2: S2.Env, e3: S3.Env, shard: string)
    requires r.httpMethod == "POST" && e1.outcome == SendOk
    requires !S1.InjectError(r) && e2.outcome == SendOk
    ensures TimedValues(AfterStage3(r, e1, e2, e3, shard).stream, S3.EndToEnd) == {Since(e3.endToEndClock, e1.startStamp)}
    ensures TimedValues(AfterStage3(r, e1, e2, e3, shard).stream, S3.PipelineDuration) == {Since(e3.sliClock, e1.startStamp)}
    ensures multiset(AfterStage3(r, e1, e2, e3, shard).stream)[TimerSample(S3.EndToEnd, Since(e3.endToEndClock, e1.startStamp))] == 1
    ensures multiset(AfterStage3(r, e1, e2, e3, shard).stream)[TimerSample(S3.PipelineDuration, Since(e3.sliClock, e1.startStamp))] == 1
  {
    var item := Relayed(r, e1, e2, shard);
    RelayedMilestones(r, e1, e2, shard);
    Stage3PollsRelayed(r, e1, e2, e3, shard);
    Stage3TimesFromStart(item, e3, e1.startStamp);
  }

  /** The relayed item decodes and carries the stamps the first two stages set. */
  lemma RelayedMilestones(r: S1.Request, e1: S1.Env, e2: S2.Env, shard: string)
    requires r.httpMethod == "POST" && e1.outcome == SendOk
    requires !S1.InjectError(r) && e2.outcome == SendOk
    ensures var item := Relayed(r, e1, e2, shard);
      && item.body.Json?
      && item.body.message.pipeline.startTime.Some?
      && item.body.message.pipeline.startTime.value == e1.startStamp
      && item.body.message.pipeline.step1Complete.Some?
      && item.body.message.pipeline.step1Complete.value == e1.step1Stamp
      && item.body.message.pipeline.step2Complete.Some?
      && item.body.message.pipeline.step2Complete.value == e2.step2Stamp
  {
    MilestonesAtStage3(r, e1, e2, shard);
  }

  /** That traversal also times each step from the stamps stages 1 and 2 put
      on the item: step 1 from StartTime to Step1Complete, step 2 from
      Step1Complete to Step2Complete, and the hand-off from Step2Complete to
      the start of stage 3's step. Each timer has that one value, and exactly
      one sample carries it. */
  lemma TraversalTimesSteps(r: S1.Request, e1: S1.Env, e2: S2.Env, e3: S3.Env, shard: string)
    requires r.httpMethod == "POST" && e1.outcome == SendOk
    requires !S1.InjectError(r) && e2.outcome == SendOk
    ensures TimedValues(AfterStage3(r, e1, e2, e3, shard).stream, S3.Step1Calculated) == {Sub(e1.step1Stamp, e1.startStamp)}
    ensures TimedValues(AfterStage3(r, e1, e2, e3, shard).stream, S3.Step2Calculated) == {Sub(e2.step2Stamp, e1.step1Stamp)}
    ensures TimedValues(AfterStage3(r, e1, e2, e3, shard).stream, S3.Step2ToStep3) == {Sub(e3.step3Start, e2.step2Stamp)}
    ensures multiset(AfterStage3(r, e1, e2, e3, shard).stream)[TimerSample(S3.Step1Calculated, Sub(e1.step1Stamp, e1.startStamp))] == 1
    ensures multiset(AfterStage3(r, e1, e2, e3, shard).stream)[TimerSample(S3.Step2Calculated, Sub(e2.step2Stamp, e1.step1Stamp))] == 1
    ensures multiset(AfterStage3(r, e1, e2, e3, shard).stream)[TimerSample(S3.Step2ToStep3, Sub(e3.step3Start, e2.step2Stamp))] == 1
  {
    var item := Relayed(r, e1, e2, shard);
    RelayedMilestones(r, e1, e2, shard);
    Stage3PollsRelayed(r, e1, e2, e3, shard);
    Stage3TimesSteps(item, e3, e1.startStamp, e1.step1Stamp, e2.step2Stamp);
  }

  /** No stage checks that the milestones are in order: each step duration
      that traversal times is non-negative exactly when the clock readings it
      is measured between are in order. */
  lemma TraversalStepsNonNegativeIffOrdered(r: S1.Request, e1: S1.Env, e2: S2.Env, e3: S3.Env, shard: string)
    requires r.httpMethod == "POST" && e1.outcome == SendOk
    requires !S1.InjectError(r) && e2.outcome == SendOk
    ensures (forall d :: d in TimedValues(AfterStage3(r, e1, e2, e3, shard).stream, S3.Step1Calculated) ==> d >= 0)
      <==> e1.startStamp <= e1.step1Stamp
    ensures (forall d :: d in TimedValues(AfterStage3(r, e1, e2, e3, shard).stream, S3.Step2Calculated) ==> d >= 0)
      <==> e1.step1Stamp <= e2.step2Stamp
    ensures (forall d :: d in TimedValues(AfterStage3(r, e1, e2, e3, shard).stream, S3.Step2ToStep3) ==> d >= 0)
      <==> e2.step2Stamp <= e3.step3Start
  {
    var stream := AfterStage3(r, e1, e2, e3, shard).stream;
    TraversalTimesSteps(r, e1, e2, e3, shard);
    OneDurationSign(stream, S3.Step1Calculated, e1.step1Stamp, e1.startStamp);
    OneDurationSign(stream, S3.Step2Calculated, e2.step2Stamp, e1.step1Stamp);
    OneDurationSign(stream, S3.Step2ToStep3, e3.step3Start, e2.step2Stamp);
  }

  /** A timer whose only value is t.Sub(u) reads non-negative exactly when u <= t. */
  lemma OneDurationSign(stream: seq<Stat>, m: Metric, t: Nanos, u: Nanos)
    requires TimedValues(stream, m) == {Sub(t, u)}
    ensures (forall d :: d in TimedValues(stream, m) ==> d >= 0) <==> u <= t
  {
    assert Sub(t, u) in TimedValues(stream, m);
  }

  /** Stage 3 polling a queue that holds only a well-formed item with all
      three stamps times each step from them. */
  lemma Stage3TimesSteps(item: QueueMessage, e3: S3.Env, start: Nanos, step1: Nanos, step2: Nanos)
    requires item.body.Json?
    requires item.body.message.pipeline.startTime.Some? && item.body.message.pipeline.startTime.value == start
    requires item.body.message.pipeline.step1Complete.Some? && item.body.message.pipeline.step1Complete.value == step1
    requires item.body.message.pipeline.step2Complete.Some? && item.body.message.pipeline.step2Complete.value == step2
    ensures TimedValues(S3.Poll(S3.State([item], []), Polled(e3)).stream, S3.Step1Calculated) == {Sub(step1, start)}
    ensures TimedValues(S3.Poll(S3.State([item], []), Polled(e3)).stream, S3.Step2Calculated) == {Sub(step2, step1)}
    ensures TimedValues(S3.Poll(S3.State([item], []), Polled(e3)).stream, S3.Step2ToStep3) == {Sub(e3.step3Start, step2)}
    ensures multiset(S3.Poll(S3.State([item], []), Polled(e3)).stream)[TimerSample(S3.Step1Calculated, Sub(step1, start))] == 1
    ensures multiset(S3.Poll(S3.State([item], []), Polled(e3)).stream)[TimerSample(S3.Step2Calculated, Sub(step2, step1))] == 1
    ensures multiset(S3.Poll(S3.State([item], []), Polled(e3)).stream)[TimerSample(S3.Step2ToStep3, Sub(e3.step3Start, step2))] == 1
  {
    Stage3Completes(item, e3);
    S3.Step1CalculatedNeedsTwoMilestones(item, e3);
    S3.Step2CalculatedNeedsAllMilestones(item, e3);
    S3.HandOffOnlyWhenStamped(item, e3);
    S3.Step1CalculatedSampledOnce(item, e3);
    S3.Step2CalculatedSampledOnce(item, e3);
    S3.HandOffSampledOnce(item, e3);
  }

  /** Stage 3's poll in that traversal is a poll of a queue holding only the relayed item. */
  lemma Stage3PollsRelayed(r: S1.Request, e1: S1.Env, e2: S2.Env, e3: S3.Env, shard: string)
    requires r.httpMethod == "POST" && e1.outcome == SendOk
    requires !S1.InjectError(r) && e2.outcome == SendOk
    ensures AfterStage3(r, e1, e2, e3, shard) == S3.Poll(S3.State([Relayed(r, e1, e2, shard)], []), Polled(e3))
  {
    FirstTwoStages(r, e1, e2, shard);
  }

  /** Stage 3 polling a queue that holds only a well-formed item stamped with
      StartTime start times both end-to-end durations from start. */
  lemma Stage3TimesFromStart(item: QueueMessage, e3: S3.Env, start: Nanos)
    requires item.body.Json? && item.body.message.pipeline.startTime.Some?
    requires item.body.message.pipeline.startTime.value == start
    ensures TimedValues(S3.Poll(S3.State([item], []), Polled(e3)).stream, S3.EndToEnd) == {Since(e3.endToEndClock, start)}
    ensures TimedValues(S3.Poll(S3.State([item], []), Polled(e3)).stream, S3.PipelineDuration) == {Since(e3.sliClock, start)}
    ensures multiset(S3.Poll(S3.State([item], []), Polled(e3)).stream)[TimerSample(S3.EndToEnd, Since(e3.endToEndClock, start))] == 1
    ensures multiset(S3.Poll(S3.State([item], []), Polled(e3)).stream)[TimerSample(S3.PipelineDuration, Since(e3.sliClock, start))] == 1
  {
    Stage3Completes(item, e3);
    S3.EndToEndTimedOnlyWhenStarted(item, e3);
    S3.EndToEndSampledOnce(item, e3);
    S3.PipelineDurationSampledOnce(item, e3);
  }

  /** Stage 2 polling a queue that holds only a well-formed, untagged item,
      with the forward succeeding, empties its input and queues the one
      forwarded item. */
  lemma Stage2Relays(item: QueueMessage, e2: S2.Env, shard: string)
    requires item.body.Json? && item.body.message.errorType != InvalidData && e2.outcome == SendOk
    ensures var o := S2.Step2(item, e2, shard).effects;
      && |o.sent| == 1
      && S2.Poll(World([item], [], []), Polled(e2), shard) == World([], o.sent, o.stats)
  {
    EmptiedBySingleDelete([item]);
  }

  /** Stage 3 polling a queue that holds only a well-formed item empties it. */
  lemma Stage3Completes(item: QueueMessage, e3: S3.Env)
    requires item.body.Json?
    ensures S3.Poll(S3.State([item], []), Polled(e3)) == S3.State([], S3.Step3(item, e3).stats)
  {
    EmptiedBySingleDelete([item]);
  }

  /** Deleting the only message's receipt handle empties a queue. */
  lemma EmptiedBySingleDelete(q: seq<QueueMessage>)
    requires |q| == 1
    ensures Without(q, q[0].receiptHandle) == []
  {
  }

  /** An error injected at stage 1 stops the item at stage 2: it leaves
      queue-step-1, nothing reaches queue-step-2, the failure is counted, and
      stage 3 has nothing to do. */
  lemma InjectedErrorStopsAtStage2(r: S1.Request, e1: S1.Env, e2: S2.Env, e3: S3.Env, shard: string)
    requires r.httpMethod == "POST" && e1.outcome == SendOk && S1.InjectError(r)
    ensures var q1 := S1.HandleSendMessage(r, e1).sent;
      var w2 := S2.Poll(World(q1, [], []), Polled(e2), shard);
      && S2.Step2(q1[0], e2, shard).disposition == S2.ShortCircuited
      && w2.input == [] && w2.output == []
      && CounterIncr(S2.FailedStep2) in w2.stream
      && S3.Poll(S3.State(w2.output, []), Polled(e3)) == S3.State([], [])
  {
    var q1 := S1.HandleSendMessage(r, e1).sent;
    S1.ErrorTagIffInjected(r, e1);
    S2.ShortCircuitCounters(q1[0], e2, shard);
    EmptiedBySingleDelete(q1);
  }

  /** A request whose send fails at stage 1 never enters the pipeline:
      queue-step-1 stays empty and a poll of stage 2 finds nothing. */
  lemma FailedIngressNeverEnqueued(r: S1.Request, e1: S1.Env, e2: S2.Env, shard: string, w: World)
    requires r.httpMethod == "POST" && e1.outcome != SendOk
    requires w.input == []
    ensures S1.HandleSendMessage(r, e1).sent == []
    ensures S1.HandleSendMessage(r, e1).response.status == S1.StatusInternalServerError
    ensures S2.Poll(World(w.input + S1.HandleSendMessage(r, e1).sent, w.output, w.stream), Polled(e2), shard) == w
  {
    assert w.input + [] == w.input;
  }
}
