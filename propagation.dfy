/**
 One worker's active context over a run of hook calls and behaviour steps.

 A run is the sequence of things that happen on one worker: the runtime calling
 a `prof` hook, or the running behaviour assigning the active context (as
 `actor1` and `actor2` do). `Run` gives the active context at the end and the
 tracing payload stamped on every element sent, in order.
 */
module Propagation {
  import opened Tracing
  import opened Profiling

  datatype Event =
    | AddActor(actor: ActorId, parent: Option<ActorId>)
    | RemoveActor(actor: ActorId)
    | BeforeProcessing(tracingId: Option<TracingData>)
    | AfterProcessing(result: InvokeMessageResult)
    | BeforeSending
    | BeforeSendingScheduled(timeout: TimePoint)
    | Assign(s: string)

  /** The active context and the payloads of the elements sent, in sending order. */
  datatype Trace = Trace(data: string, sent: seq<Option<TracingData>>)

  /** The active context after one event. */
  function After(data: string, e: Event): string {
    match e
    case BeforeProcessing(tracingId) => ContextAfterProcessing(data, tracingId)
    case Assign(s) => s
    case _ => data
  }

  /** The payloads one event puts on outgoing elements: one stamp per send hook, none otherwise. */
  function Emitted(data: string, e: Event): seq<Option<TracingData>> {
    if e.BeforeSending? || e.BeforeSendingScheduled? then [Stamp(data)] else []
  }

  /** The events that may give the active context a new value. */
  predicate Replaces(e: Event) {
    e.Assign? || (e.BeforeProcessing? && Inspect(e.tracingId).Got?)
  }

  /** The events that neither change the active context nor send. */
  predicate Inert(e: Event) {
    e.AddActor? || e.RemoveActor? || e.AfterProcessing? || (e.BeforeProcessing? && !Inspect(e.tracingId).Got?)
  }

  /** The number of send hooks, immediate or scheduled, in a run. */
  function SendCount(events: seq<Event>): nat
    decreases |events|
  {
    if events == [] then 0
    else (if events[0].BeforeSending? || events[0].BeforeSendingScheduled? then 1 else 0) + SendCount(events[1..])
  }

  /**
   The whole run. Every element sent carries a `trc_data`, even when the
   active context is empty.
   */
  function Run(data: string, events: seq<Event>): (r: Trace)
    ensures forall i :: 0 <= i < |r.sent| ==> r.sent[i].Some? && r.sent[i].value.TrcData?
    decreases |events|
  {
    if events == [] then Trace(data, [])
    else
      var rest := Run(After(data, events[0]), events[1..]);
      Trace(rest.data, Emitted(data, events[0]) + rest.sent)
  }

  /** A run sends exactly one element per send hook, immediate or scheduled. */
  lemma {:induction false} RunSendsOncePerSendHook(data: string, events: seq<Event>)
    ensures |Run(data, events).sent| == SendCount(events)
    decreases |events|
  {
    if events != [] {
      RunSendsOncePerSendHook(After(data, events[0]), events[1..]);
    }
  }

  /** Running two stretches one after the other is running the first, then the second from where it left off. */
  lemma {:induction false} RunAppend(data: string, xs: seq<Event>, ys: seq<Event>)
    ensures Run(data, xs + ys) == Trace(Run(Run(data, xs).data, ys).data,
                                        Run(data, xs).sent + Run(Run(data, xs).data, ys).sent)
    decreases |xs|
  {
    if xs == [] {
      assert xs + ys == ys;
    } else {
      var next := After(data, xs[0]);
      assert (xs + ys)[0] == xs[0];
      assert (xs + ys)[1..] == xs[1..] + ys;
      RunAppend(next, xs[1..], ys);
    }
  }

  /**
   Propagation: as long as nothing replaces the active context, it stays as it
   is and every element sent carries exactly it.
   */
  lemma {:induction false} PropagationLaw(data: string, events: seq<Event>)
    requires forall i :: 0 <= i < |events| ==> !Replaces(events[i])
    ensures Run(data, events).data == data
    ensures forall i :: 0 <= i < |Run(data, events).sent| ==> Run(data, events).sent[i] == Some(TrcData(data))
    decreases |events|
  {
    if events != [] {
      assert After(data, events[0]) == data;
      PropagationLaw(data, events[1..]);
    }
  }

  /**
   Processing an element that carries `trc_data(t)` makes `t` the payload of
   every later send until something replaces it, across `after_processing` too.
   */
  lemma ProcessedContextPropagates(data: string, t: string, events: seq<Event>)
    requires forall i :: 0 <= i < |events| ==> !Replaces(events[i])
    ensures Run(data, [BeforeProcessing(Some(TrcData(t)))] + events).data == t
    ensures Run(data, [BeforeProcessing(Some(TrcData(t)))] + events).sent == Run(t, events).sent
    ensures forall i :: 0 <= i < |Run(t, events).sent| ==> Run(t, events).sent[i] == Some(TrcData(t))
  {
    var evs := [BeforeProcessing(Some(TrcData(t)))] + events;
    assert evs[0] == BeforeProcessing(Some(TrcData(t)));
    assert evs[1..] == events;
    PropagationLaw(t, events);
  }

  /**
   Replacement: after the behaviour assigns `t`, every later send carries `t`
   (until the next replacement), whatever was active before; the sends before
   the assignment are not affected.
   */
  lemma ReplacementLaw(data: string, before: seq<Event>, t: string, after: seq<Event>)
    requires forall i :: 0 <= i < |after| ==> !Replaces(after[i])
    ensures Run(data, before + [Assign(t)] + after).data == t
    ensures Run(data, before + [Assign(t)] + after).sent == Run(data, before).sent + Run(t, after).sent
    ensures forall i :: 0 <= i < |Run(t, after).sent| ==> Run(t, after).sent[i] == Some(TrcData(t))
  {
    var mid := Run(data, before).data;
    RunAppend(data, before, [Assign(t)] + after);
    assert before + [Assign(t)] + after == before + ([Assign(t)] + after);
    var evs := [Assign(t)] + after;
    assert evs[0] == Assign(t) && evs[1..] == after;
    assert Run(mid, evs) == Trace(Run(t, after).data, Run(t, after).sent);
    PropagationLaw(t, after);
  }

  /** A single inert event can be dropped from any run without changing its outcome. */
  lemma InertEventChangesNothing(data: string, before: seq<Event>, e: Event, after: seq<Event>)
    requires Inert(e)
    ensures Run(data, before + [e] + after) == Run(data, before + after)
  {
    var mid := Run(data, before).data;
    RunAppend(data, before, [e] + after);
    RunAppend(data, before, after);
    assert before + [e] + after == before + ([e] + after);
    var evs := [e] + after;
    assert evs[0] == e && evs[1..] == after;
    assert After(mid, e) == mid;
  }

  /** `before_sending_scheduled` with any deadline can stand in for `before_sending` in any run. */
  lemma ScheduledSendIsImmediateSend(data: string, before: seq<Event>, timeout: TimePoint, after: seq<Event>)
    ensures Run(data, before + [BeforeSendingScheduled(timeout)] + after) == Run(data, before + [BeforeSending] + after)
  {
    var e1, e2 := BeforeSendingScheduled(timeout), BeforeSending;
    RunAppend(data, before, [e1] + after);
    RunAppend(data, before, [e2] + after);
    assert before + [e1] + after == before + ([e1] + after);
    assert before + [e2] + after == before + ([e2] + after);
    var mid := Run(data, before).data;
    var evs1, evs2 := [e1] + after, [e2] + after;
    assert evs1[0] == e1 && evs1[1..] == after;
    assert evs2[0] == e2 && evs2[1..] == after;
  }
}
