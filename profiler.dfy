/**
 The demo's actor profiler `prof`: the hooks the actor runtime calls around
 actor lifecycle, message processing and message sending, together with the
 worker-thread-local "active context" string they read and write.
 */
module Profiling {
  import opened Tracing

  /** Identity of an actor, as the runtime passes it to the lifecycle hooks. */
  type ActorId = nat

  /** A point in time on the actor clock; the scheduled-send hook ignores it. */
  type TimePoint = int

  /** The runtime's verdict on one message, handed to `after_processing`. */
  datatype InvokeMessageResult = Consumed | Skipped | Dropped

  /** The message the runtime hands to the hooks; only `tracingId` is ever written by them. */
  class MailboxElement {
    var sender: Option<ActorId>
    var content: string
    var tracingId: Option<TracingData>

    constructor (sender: Option<ActorId>, content: string, tracingId: Option<TracingData>)
      ensures this.sender == sender && this.content == content && this.tracingId == tracingId
    {
      this.sender := sender;
      this.content := content;
      this.tracingId := tracingId;
    }
  }

  /**
   What `before_processing` reports: the missing-payload line, the
   failed-downcast line (both on stderr), or the line naming the payload it got.
   */
  datatype Report = TracingIdNull | DowncastFailed | Got(s: string)

  /**
   The report of `before_processing` for an element's tracing payload. It names
   a payload exactly when the payload is present and is a `trc_data`.
   */
  function Inspect(tracingId: Option<TracingData>): (r: Report)
    ensures r == TracingIdNull <==> tracingId.None?
    ensures r == DowncastFailed <==> tracingId.Some? && tracingId.value.OtherKind?
    ensures r.Got? <==> tracingId.Some? && tracingId.value.TrcData?
    ensures r.Got? ==> tracingId == Some(TrcData(r.s))
  {
    match tracingId
    case None => TracingIdNull
    case Some(OtherKind(_)) => DowncastFailed
    case Some(TrcData(s)) => Got(s)
  }

  /**
   The active context after `before_processing`: the payload's string when the
   payload is a `trc_data`, and the old active context in every other case.
   */
  function ContextAfterProcessing(data: string, tracingId: Option<TracingData>): (r: string)
    ensures r == data || tracingId == Some(TrcData(r))
    ensures Inspect(tracingId).Got? ==> r == Inspect(tracingId).s
    ensures !Inspect(tracingId).Got? ==> r == data
  {
    match tracingId
    case Some(TrcData(s)) => s
    case _ => data
  }

  /** The payload `before_sending` attaches: a fresh `trc_data` holding a copy of the active context. */
  function Stamp(data: string): (r: Option<TracingData>)
    ensures Inspect(r) == Got(data)
  {
    Some(TrcData(data))
  }

  /**
   `prof` as seen by one worker thread: its hooks together with that thread's
   `data`, the active context. One instance stands for one worker.
   */
  class Profiler {
    var data: string

    /** A thread-local `std::string` starts out empty. */
    constructor ()
      ensures data == ""
    {
      data := "";
    }

    /** `add_actor`: does nothing. */
    method AddActor(actor: ActorId, parent: Option<ActorId>)
      ensures data == old(data)
    {
    }

    /** `remove_actor`: does nothing. */
    method RemoveActor(actor: ActorId)
      ensures data == old(data)
    {
    }

    /**
     `before_processing`: install the element's `trc_data` string as the active
     context; with no payload, or a payload of another kind, report it and
     leave the active context alone. The element is only read.
     */
    method BeforeProcessing(element: MailboxElement) returns (report: Report)
      modifies this
      ensures report == Inspect(element.tracingId)
      ensures data == ContextAfterProcessing(old(data), element.tracingId)
      ensures unchanged(element)
    {
      if element.tracingId.None? {
        report := TracingIdNull;
        return;
      }
      match element.tracingId.value
      case OtherKind(_) =>
        report := DowncastFailed;
      case TrcData(s) =>
        report := Got(s);
        data := s;
    }

    /** `after_processing`: does nothing; in particular the active context outlives the message. */
    method AfterProcessing(result: InvokeMessageResult)
      ensures data == old(data)
    {
    }

    /**
     `before_sending`: overwrite the outgoing element's payload with a copy of
     the active context. Neither the active context nor the rest of the element changes.
     */
    method BeforeSending(element: MailboxElement)
      modifies element`tracingId
      ensures element.tracingId == Stamp(data)
      ensures data == old(data)
      ensures element.sender == old(element.sender) && element.content == old(element.content)
    {
      element.tracingId := Some(TrcData(data));
    }

    /** `before_sending_scheduled`: the same as `before_sending`; the deadline plays no part. */
    method BeforeSendingScheduled(timeout: TimePoint, element: MailboxElement)
      modifies element`tracingId
      ensures element.tracingId == Stamp(data)
      ensures data == old(data)
      ensures element.sender == old(element.sender) && element.content == old(element.content)
    {
      element.tracingId := Some(TrcData(data));
    }
  }
}
