/**
 The hooks driven by hand, the way the actor runtime drives them, on fresh
 workers and elements: one message processed and one sent on a single worker,
 and the demo's two-actor exchange, whose tracing payloads cross the wire
 through `Serialize` and `DeserializeImpl`.
 */
module Exchange {
  import opened Tracing
  import opened Profiling
  import opened Actors

  /**
   A worker whose active context is `previous` processes an element carrying
   `tracingId`, finishes processing, then sends. The send carries the payload's
   string when the payload is a `trc_data`, and `previous` otherwise.
   */
  method ProcessThenSend(previous: string, tracingId: Option<TracingData>, outgoing: string)
    returns (report: Report, sent: Option<TracingData>, content: string)
    ensures report == Inspect(tracingId)
    ensures forall t :: tracingId == Some(TrcData(t)) ==> sent == Some(TrcData(t))
    ensures !Inspect(tracingId).Got? ==> sent == Some(TrcData(previous))
    ensures content == outgoing
  {
    var worker := new Profiler();
    worker.data := previous;
    var incoming := new MailboxElement(None, "", tracingId);
    report := worker.BeforeProcessing(incoming);
    worker.AfterProcessing(Consumed);
    var element := new MailboxElement(None, outgoing, None);
    worker.BeforeSending(element);
    sent, content := element.tracingId, element.content;
  }

  /** Carry an element's tracing payload over the wire: serialized by the sender, deserialized by the receiver. */
  method Transmit(write: string -> WriteResult, read: seq<Byte> -> ReadResult, element: MailboxElement)
    returns (received: MailboxElement)
    requires Inverts(write, read) && NeverFails(write)
    requires element.tracingId.Some? && element.tracingId.value.TrcData?
    ensures fresh(received)
    ensures received.sender == element.sender && received.content == element.content
    ensures received.tracingId == element.tracingId
  {
    assert write(element.tracingId.value.s).Written?;
    var bytes := Serialize(write, element.tracingId.value).bytes;
    SerializeRoundTrip(write, read, element.tracingId.value, [], None);
    assert bytes + [] == bytes;
    var d := DeserializeImpl(read, bytes, None);
    received := new MailboxElement(element.sender, element.content, d.dst);
  }

  /**
   `actor2` greets `actor1` in another actor system and `actor1` replies.
   `actor1` processes the greeting under `actor2`'s context; the reply is the
   thank-you string and reaches `actor2` under `actor1`'s new context.
   */
  method RemoteExchange(write: string -> WriteResult, read: seq<Byte> -> ReadResult, actor1: ActorId, actor2: ActorId)
    returns (greeting: string, actor1Saw: string, reply: string, actor2Saw: string)
    requires Inverts(write, read) && NeverFails(write)
    ensures greeting == "Hi, I'm actor2."
    ensures actor1Saw == "actor2 put this here"
    ensures reply == "Thanks for sending: \"Hi, I'm actor2.\"!"
    ensures actor2Saw == "actor1 put this here"
  {
    var worker1 := new Profiler();
    var worker2 := new Profiler();

    var request := Actor2Start(worker2);
    var outgoing := new MailboxElement(Some(actor2), request, None);
    worker2.BeforeSending(outgoing);
    var incoming := Transmit(write, read, outgoing);
    assert incoming.tracingId == Some(TrcData(Actor2Context));

    var report1 := worker1.BeforeProcessing(incoming);
    greeting, actor1Saw := incoming.content, worker1.data;
    reply := Actor1Handle(worker1, greeting);
    assert reply == ReplyPrefix + Actor2Greeting + ReplySuffix;
    worker1.AfterProcessing(Consumed);
    var response := new MailboxElement(Some(actor1), reply, None);
    worker1.BeforeSending(response);
    var delivered := Transmit(write, read, response);
    assert delivered.tracingId == Some(TrcData(Actor1Context));

    var report2 := worker2.BeforeProcessing(delivered);
    actor2Saw := worker2.data;
  }
}
