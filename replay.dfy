/**
 A run of events performed on a worker hook by hook, and the proof that it
 agrees with `Propagation.Run`: every law proved of `Run` is a law of the
 `Profiler` hooks themselves.
 */
module Replay {
  import opened Tracing
  import opened Profiling
  import opened Propagation

  /**
   One event of a run, performed on a worker: a hook called by the runtime on
   a fresh element, or the behaviour assigning the active context. The worker
   ends where `After` says, and the payloads sent are the ones `Emitted` says.
   */
  method Step(worker: Profiler, e: Event) returns (sent: seq<Option<TracingData>>)
    modifies worker
    ensures worker.data == After(old(worker.data), e)
    ensures sent == Emitted(old(worker.data), e)
  {
    sent := [];
    match e
    case AddActor(actor, parent) =>
      worker.AddActor(actor, parent);
    case RemoveActor(actor) =>
      worker.RemoveActor(actor);
    case BeforeProcessing(tracingId) =>
      var element := new MailboxElement(None, "", tracingId);
      var report := worker.BeforeProcessing(element);
    case AfterProcessing(result) =>
      worker.AfterProcessing(result);
    case BeforeSending =>
      var element := new MailboxElement(None, "", None);
      worker.BeforeSending(element);
      sent := [element.tracingId];
    case BeforeSendingScheduled(timeout) =>
      var element := new MailboxElement(None, "", None);
      worker.BeforeSendingScheduled(timeout, element);
      sent := [element.tracingId];
    case Assign(s) =>
      worker.data := s;
  }

  /**
   A whole run performed on a worker, event by event: the worker's final active
   context and the payloads it sent are those `Run` gives, so every law proved
   of `Run` holds of the hooks themselves.
   */
  method Replay(worker: Profiler, events: seq<Event>) returns (sent: seq<Option<TracingData>>)
    modifies worker
    ensures worker.data == Run(old(worker.data), events).data
    ensures sent == Run(old(worker.data), events).sent
  {
    ghost var start := worker.data;
    sent := [];
    var i := 0;
    while i < |events|
      invariant 0 <= i <= |events|
      invariant worker.data == Run(start, events[..i]).data
      invariant sent == Run(start, events[..i]).sent
    {
      var out := Step(worker, events[i]);
      RunAppend(start, events[..i], [events[i]]);
      assert events[..i + 1] == events[..i] + [events[i]];
      assert [events[i]][1..] == [];
      sent := sent + out;
      i := i + 1;
    }
    assert events[..i] == events;
  }
}
