/** Values shared by the three pipeline services: the work item they hand on
    (PipelineMessage), the SQS message that carries it, and the statsd
    datagrams the services emit while handling it. */
module Pipeline {

  datatype Option<T> = None | Some(value: T)

  /** Go's time.Duration, and the instants a parsed timestamp denotes: nanoseconds. */
  type Nanos = int

  const Millisecond: Nanos := 1_000_000
  const Second: Nanos := 1_000 * Millisecond

  /** t.Sub(u): the duration from instant u to instant t. */
  function Sub(t: Nanos, u: Nanos): Nanos {
    t - u
  }

  /** time.Since(t) read when the clock shows clock. */
  function Since(clock: Nanos, t: Nanos): Nanos {
    clock - t
  }

  /** A timestamp field of the work item as time.Parse(time.RFC3339Nano, ·) sees it:
      Some(t) when the stored RFC 3339 date-time string denotes the instant t,
      None when the string is empty or does not parse. */
  type Stamp = Option<Nanos>

  /** The `pipeline` object of the work item. */
  datatype Milestones = Milestones(
    startTime: Stamp,
    step1Complete: Stamp,
    step2Complete: Stamp,
    currentStep: int)

  /** PipelineMessage, the JSON body every hand-off carries. */
  datatype PipelineMessage = PipelineMessage(
    correlationId: string,
    data: string,
    pipeline: Milestones,
    errorType: string)

  /** The only error tag any stage sets, and the only one stage 2 reacts to. */
  const InvalidData := "invalid_data"

  /** The correlation id a stage uses for attributes and logs: the given id,
      or the generated one when the given id is empty. */
  function CorrelationOf(given: string, generated: string): (id: string)
    ensures id == given || id == generated
    ensures given != "" ==> id == given
    ensures id != "" <==> given != "" || generated != ""
  {
    if given == "" then generated else given
  }

  /** A message body as json.Unmarshal sees it: it decodes to a work item, or it does not. */
  datatype Body = Malformed | Json(message: PipelineMessage)

  /** An SQS message attribute; only attributes whose StringValue is set carry text. */
  datatype AttributeValue = AttributeValue(dataType: string, stringValue: Option<string>)

  type Attributes = map<string, AttributeValue>

  /** A message on a queue: the receipt handle a delete names, the body and the attributes. */
  datatype QueueMessage = QueueMessage(receiptHandle: string, body: Body, attributes: Attributes)

  /** The queue after DeleteMessage(handle): the one message the handle was
      issued for leaves the queue. A poll hands out the first message, so when
      several queued messages carry the same handle it is the first of them
      that goes; the others stay. */
  function Without(q: seq<QueueMessage>, handle: string): (r: seq<QueueMessage>)
    ensures (forall m :: m in q ==> m.receiptHandle != handle) ==> r == q
    ensures q != [] && q[0].receiptHandle == handle ==> r == q[1..]
  {
    if q == [] then []
    else if q[0].receiptHandle == handle then q[1..]
    else
      assert q == [q[0]] + q[1..];
      [q[0]] + Without(q[1..], handle)
  }

  /** A delete removes at most one message: the first one carrying the handle,
      when there is one, so the queue keeps every other message in its order. */
  lemma {:induction false} WithoutRemovesOne(q: seq<QueueMessage>, handle: string)
    ensures forall m :: m in q && m.receiptHandle != handle ==> m in Without(q, handle)
    ensures multiset(Without(q, handle)) <= multiset(q)
    ensures |Without(q, handle)| == if exists m :: m in q && m.receiptHandle == handle then |q| - 1 else |q|
    ensures (exists m :: m in q && m.receiptHandle == handle) ==>
      exists i :: 0 <= i < |q| && q[i].receiptHandle == handle
        && (forall j :: 0 <= j < i ==> q[j].receiptHandle != handle)
        && Without(q, handle) == q[..i] + q[i + 1..]
  {
    WithoutKeeps(q, handle);
    if exists m :: m in q && m.receiptHandle == handle {
      var i := FirstWithHandle(q, handle);
      WithoutAtFirst(q, handle, i);
    }
  }

  /** A delete keeps every message with another handle and adds none. */
  lemma {:induction false} WithoutKeeps(q: seq<QueueMessage>, handle: string)
    ensures forall m :: m in q && m.receiptHandle != handle ==> m in Without(q, handle)
    ensures multiset(Without(q, handle)) <= multiset(q)
  {
    if q != [] && q[0].receiptHandle != handle {
      WithoutKeeps(q[1..], handle);
      assert q == [q[0]] + q[1..];
    } else if q != [] {
      assert q == [q[0]] + q[1..];
    }
  }

  /** The position of the first message carrying the handle. */
  lemma {:induction false} FirstWithHandle(q: seq<QueueMessage>, handle: string) returns (i: nat)
    requires exists m :: m in q && m.receiptHandle == handle
    ensures i < |q| && q[i].receiptHandle == handle
    ensures forall j :: 0 <= j < i ==> q[j].receiptHandle != handle
  {
    if q[0].receiptHandle == handle {
      i := 0;
    } else {
      var t := q[1..];
      assert q == [q[0]] + t;
      var k := FirstWithHandle(t, handle);
      i := k + 1;
      forall j | 0 <= j < i
        ensures q[j].receiptHandle != handle
      {
        if j > 0 {
          assert q[j] == t[j - 1];
        }
      }
    }
  }

  /** A delete leaves everything before the first message carrying the handle
      and everything after it. */
  lemma {:induction false} WithoutAtFirst(q: seq<QueueMessage>, handle: string, i: nat)
    requires i < |q| && q[i].receiptHandle == handle
    requires forall j :: 0 <= j < i ==> q[j].receiptHandle != handle
    ensures Without(q, handle) == q[..i] + q[i + 1..]
  {
    if i > 0 {
      var t := q[1..];
      assert t[i - 1] == q[i];
      assert forall j :: 0 <= j < i - 1 ==> t[j] == q[j + 1];
      WithoutAtFirst(t, handle, i - 1);
      calc {
        Without(q, handle);
        [q[0]] + Without(t, handle);
        [q[0]] + (t[..i - 1] + t[i..]);
        { SeqAssoc([q[0]], t[..i - 1], t[i..]); }
        ([q[0]] + t[..i - 1]) + t[i..];
        { assert q[..i] == [q[0]] + t[..i - 1]; assert q[i + 1..] == t[i..]; }
        q[..i] + q[i + 1..];
      }
    }
  }

  /** What a send attempt ends in: json.Marshal fails, SendMessage fails, or the message is on the queue. */
  datatype SendOutcome = SendOk | MarshalError | SendError

  // ---------------------------------------------------------------------------
  // statsd

  /** A statsd metric: its name and its tag list. */
  datatype Metric = Metric(name: string, tags: seq<string>)

  /** One statsd call: Incr(metric, tags, 1) or Timing(metric, duration, tags, 1). */
  datatype Stat = CounterIncr(metric: Metric) | TimerSample(metric: Metric, value: Nanos)

  /** How many times the counter m is incremented in the stream s. */
  function Incrs(s: seq<Stat>, m: Metric): nat {
    multiset(s)[CounterIncr(m)]
  }

  /** Counting increments distributes over concatenation. */
  lemma IncrsSplit(a: seq<Stat>, b: seq<Stat>, m: Metric)
    ensures Incrs(a + b, m) == Incrs(a, m) + Incrs(b, m)
  {
    assert multiset(a + b) == multiset(a) + multiset(b);
  }

  /** Appending five pieces one after another appends their concatenation. */
  lemma AppendFive(s: seq<Stat>, a: seq<Stat>, b: seq<Stat>, c: seq<Stat>, d: seq<Stat>, e: seq<Stat>)
    ensures s + a + b + c + d + e == s + (a + b + c + d + e)
  {
    assert s + a + b == s + (a + b);
    assert s + (a + b) + c == s + (a + b + c);
    assert s + (a + b + c) + d == s + (a + b + c + d);
  }

  /** The durations timed for m in a concatenation are those of its parts. */
  lemma TimedValuesSplit(a: seq<Stat>, b: seq<Stat>, m: Metric)
    ensures TimedValues(a + b, m) == TimedValues(a, m) + TimedValues(b, m)
  {
  }

  /** When only the i-th of five pieces times m, the whole times what that piece times. */
  lemma {:induction false} TimedFromOnePiece(a: seq<Stat>, b: seq<Stat>, c: seq<Stat>, d: seq<Stat>, e: seq<Stat>,
                                             m: Metric, i: nat)
    requires i < 5
    requires i != 0 ==> TimedValues(a, m) == {}
    requires i != 1 ==> TimedValues(b, m) == {}
    requires i != 2 ==> TimedValues(c, m) == {}
    requires i != 3 ==> TimedValues(d, m) == {}
    requires i != 4 ==> TimedValues(e, m) == {}
    ensures TimedValues(a + b + c + d + e, m) == TimedValues([a, b, c, d, e][i], m)
  {
    TimedValuesSplit(a + b + c + d, e, m);
    TimedValuesSplit(a + b + c, d, m);
    TimedValuesSplit(a + b, c, m);
    TimedValuesSplit(a, b, m);
  }

  /** A stat in the i-th of five pieces is in the whole, and one in the whole
      but in none of the other pieces is in the i-th. */
  lemma InOnePiece(a: seq<Stat>, b: seq<Stat>, c: seq<Stat>, d: seq<Stat>, e: seq<Stat>, x: Stat, i: nat)
    requires i < 5
    requires i != 0 ==> x !in a
    requires i != 1 ==> x !in b
    requires i != 2 ==> x !in c
    requires i != 3 ==> x !in d
    requires i != 4 ==> x !in e
    ensures x in a + b + c + d + e <==> x in [a, b, c, d, e][i]
  {
  }

  /** When only the i-th of five pieces increments m, the whole counts what that piece counts. */
  lemma {:induction false} IncrsFromOnePiece(a: seq<Stat>, b: seq<Stat>, c: seq<Stat>, d: seq<Stat>, e: seq<Stat>,
                                             m: Metric, i: nat)
    requires i < 5
    requires i != 0 ==> CounterIncr(m) !in a
    requires i != 1 ==> CounterIncr(m) !in b
    requires i != 2 ==> CounterIncr(m) !in c
    requires i != 3 ==> CounterIncr(m) !in d
    requires i != 4 ==> CounterIncr(m) !in e
    ensures Incrs(a + b + c + d + e, m) == Incrs([a, b, c, d, e][i], m)
  {
    IncrsSplit(a + b + c + d, e, m);
    IncrsSplit(a + b + c, d, m);
    IncrsSplit(a + b, c, m);
    IncrsSplit(a, b, m);
  }

  /** When only the i-th of five pieces holds the stat x, the whole holds x as
      many times as that piece does. */
  lemma CountFromOnePiece(a: seq<Stat>, b: seq<Stat>, c: seq<Stat>, d: seq<Stat>, e: seq<Stat>, x: Stat, i: nat)
    requires i < 5
    requires i != 0 ==> x !in a
    requires i != 1 ==> x !in b
    requires i != 2 ==> x !in c
    requires i != 3 ==> x !in d
    requires i != 4 ==> x !in e
    ensures multiset(a + b + c + d + e)[x] == multiset([a, b, c, d, e][i])[x]
  {
    assert multiset(a + b + c + d + e) == multiset(a) + multiset(b) + multiset(c) + multiset(d) + multiset(e);
  }

  /** A stream that times nothing for m holds no sample of m. */
  lemma NotTimedNoSample(s: seq<Stat>, m: Metric, v: Nanos)
    requires TimedValues(s, m) == {}
    ensures TimerSample(m, v) !in s
  {
    assert TimerSample(m, v) in s ==> v in TimedValues(s, m);
  }

  /** The durations emitted for the timer m in the stream s. */
  function TimedValues(s: seq<Stat>, m: Metric): set<Nanos> {
    set x | x in s && x.TimerSample? && x.metric == m :: x.value
  }

  /** The counters a statsd agent holds after receiving the stream. */
  type Counters = map<Metric, nat>

  function Counter(c: Counters, m: Metric): nat {
    if m in c then c[m] else 0
  }

  function Tally(s: seq<Stat>): Counters {
    if s == [] then map[]
    else
      var c := Tally(s[..|s| - 1]);
      match s[|s| - 1]
      case CounterIncr(m) => c[m := Counter(c, m) + 1]
      case TimerSample(_, _) => c
  }

  /** The agent's counter for m is the number of increments of m in the stream. */
  lemma {:induction false} TallyCounts(s: seq<Stat>, m: Metric)
    ensures Counter(Tally(s), m) == Incrs(s, m)
  {
    if s != [] {
      var init := s[..|s| - 1];
      TallyCounts(init, m);
      assert s == init + [s[|s| - 1]];
    }
  }

  /** The stream with every increment of m removed. */
  function Strip(s: seq<Stat>, m: Metric): (r: seq<Stat>)
    ensures CounterIncr(m) !in r
  {
    if s == [] then []
    else if s[0] == CounterIncr(m) then Strip(s[1..], m)
    else [s[0]] + Strip(s[1..], m)
  }

  lemma SeqAssoc<T>(x: seq<T>, y: seq<T>, z: seq<T>)
    ensures x + (y + z) == (x + y) + z
  {
  }

  lemma {:induction false} StripAppend(a: seq<Stat>, b: seq<Stat>, m: Metric)
    ensures Strip(a + b, m) == Strip(a, m) + Strip(b, m)
  {
    if a == [] {
      assert a + b == b;
    } else {
      var ab := a + b;
      StripAppend(a[1..], b, m);
      assert ab[0] == a[0] && ab[1..] == a[1..] + b;
      var head := if a[0] == CounterIncr(m) then [] else [a[0]];
      assert Strip(ab, m) == head + Strip(a[1..] + b, m);
      assert Strip(a, m) == head + Strip(a[1..], m);
      SeqAssoc(head, Strip(a[1..], m), Strip(b, m));
    }
  }

  // ---------------------------------------------------------------------------
  // What handling one message does, and the state it acts on

  /** The externally visible effects of a stage handling one received message:
      whether the input message is deleted, what is sent on the output queue,
      and the statsd calls made, in order. */
  datatype Effects = Effects(deleted: bool, sent: seq<QueueMessage>, stats: seq<Stat>)

  /** A stage's view of the system: its input queue, its output queue and the statsd stream. */
  datatype World = World(input: seq<QueueMessage>, output: seq<QueueMessage>, stream: seq<Stat>)

  function Apply(w: World, handle: string, e: Effects): World {
    World(
      if e.deleted then Without(w.input, handle) else w.input,
      w.output + e.sent,
      w.stream + e.stats)
  }

  /** One turn of a consumer loop: ReceiveMessage returned an error, or it was
      answered, with the clock readings and other inputs that the handling of a
      delivered message then sees. */
  datatype Tick<E> = ReceiveFailed | Polled(env: E)

  /** The number of receive errors in a script of ticks. */
  function Failures<E>(ticks: seq<Tick<E>>): nat {
    if ticks == [] then 0
    else Failures(ticks[..|ticks| - 1]) + (if ticks[|ticks| - 1].ReceiveFailed? then 1 else 0)
  }

  /** The script with its receive errors taken out. */
  function Successes<E>(ticks: seq<Tick<E>>): (r: seq<Tick<E>>)
    ensures Failures(r) == 0
    ensures |r| + Failures(ticks) == |ticks|
  {
    if ticks == [] then []
    else
      var init := Successes(ticks[..|ticks| - 1]);
      assert init + [ticks[|ticks| - 1]] != [];
      assert (init + [ticks[|ticks| - 1]])[..|init|] == init;
      if ticks[|ticks| - 1].ReceiveFailed? then init else init + [ticks[|ticks| - 1]]
  }
}
