/** The two clients every service shares: an SQS queue and the statsd sink.
    Both are objects whose state the services change through method calls. */
module Transport {
  import opened Pipeline

  /** What ReceiveMessage answers with MaxNumberOfMessages set to 1. */
  datatype Received = ReceiveError | NoMessage | Message(msg: QueueMessage)

  /** An SQS queue: the messages it holds, the head first. A received message
      stays on the queue until it is deleted, so one that is never deleted is
      received again by a later poll. */
  class Queue {
    var messages: seq<QueueMessage>

    constructor (initial: seq<QueueMessage>)
      ensures messages == initial
    {
      messages := initial;
    }

    /** ReceiveMessage: an error when the transport is unreachable, otherwise
        the message at the head of the queue, if any, left in place. */
    method Receive(reachable: bool) returns (r: Received)
      ensures !reachable ==> r == ReceiveError
      ensures reachable && messages == [] ==> r == NoMessage
      ensures reachable && messages != [] ==> r == Message(messages[0])
    {
      if !reachable {
        r := ReceiveError;
      } else if messages == [] {
        r := NoMessage;
      } else {
        r := Message(messages[0]);
      }
    }

    /** SendMessage that succeeds: the message joins the end of the queue. */
    method Send(m: QueueMessage)
      modifies this
      ensures messages == old(messages) + [m]
    {
      messages := messages + [m];
    }

    /** DeleteMessage: the first message with this receipt handle leaves the
        queue; no message leaves when none carries it. */
    method Delete(receiptHandle: string)
      modifies this
      ensures messages == Without(old(messages), receiptHandle)
    {
      messages := Without(messages, receiptHandle);
    }
  }

  /** The statsd client: every call adds one datagram to the stream it has sent. */
  class Statsd {
    var stream: seq<Stat>

    constructor ()
      ensures stream == []
    {
      stream := [];
    }

    method Incr(m: Metric)
      modifies this
      ensures stream == old(stream) + [CounterIncr(m)]
    {
      stream := stream + [CounterIncr(m)];
    }

    method Timing(m: Metric, d: Nanos)
      modifies this
      ensures stream == old(stream) + [TimerSample(m, d)]
    {
      stream := stream + [TimerSample(m, d)];
    }
  }
}
