# Tracing-context propagation in the CAF tracing demo

This project models the tracing-context hooks of the `caf_tracing_data` demo.
The demo plugs an actor profiler (`prof`) and a tracing-data factory
(`trc_data_fac`) into the CAF actor runtime. Every worker thread has one
active context, the thread-local string `data`.

- When a message is about to be processed, `before_processing` installs the
  string of the message's `trc_data` payload as the active context. If the
  payload is missing or of another kind, it reports this and changes nothing.
- When a message is about to be sent, right away or at a deadline,
  `before_sending` or `before_sending_scheduled` stamps a fresh
  `trc_data(data)` onto it.
- The other hooks do nothing. In particular, the active context is not cleared
  after processing: it persists until something replaces it.
- `actor1` replies to a string with a thank-you string and sets its active
  context to "actor1 put this here". `actor2` sets its own to "actor2 put this
  here" before greeting `actor1`.
- The payload crosses the network through `trc_data::serialize`, which writes
  only its string, and `trc_data_fac::deserialize_impl`.

Modules, one per concern:

- `Tracing` (tracing.dfy): the payload as a tagged value
  `TrcData(s) | OtherKind(kind)`, which replaces the source's `dynamic_cast`.
  It also holds `Option` for the nullable `tracing_id` and the serialize and
  deserialize steps. The runtime's string writer and reader are parameters.
  Either may fail with an error, and `serialize` passes the writer's error on.
  Where the writer succeeds, the reader is assumed to invert it (`Inverts`).
- `Profiling` (profiler.dfy): class `MailboxElement`, whose `tracingId` the
  send hooks overwrite in place. Class `Profiler`, one instance per worker,
  holds the `data` field and has the hooks as methods. It also holds the
  functions that specify the hooks: `Inspect`, `ContextAfterProcessing` and
  `Stamp`.
- `Actors` (actors.dfy): the two demo behaviours, as far as they touch the
  active context.
- `Propagation` (propagation.dfy): a worker's run as a sequence of hook calls
  and behaviour assignments. `Run` gives the final active context and the
  payload of every element sent. The lemmas here state propagation,
  replacement, the no-op hooks and the equivalence of scheduled and immediate
  sends.
- `Exchange` (exchange.dfy): the class methods driven in sequence on fresh
  workers and elements. This covers one process-then-send cycle, and the demo's
  greeting and reply between `actor2` and `actor1` across the wire.
- `Replay` (replay.dfy): `Step` performs one event of a run by calling the
  matching hook, and `Replay` performs a whole run. Both are proved to agree
  with `Run`, so the laws proved of `Run` hold of the `Profiler` hooks.

`after_processing` does not clear the active context: it is a no-op
(src/main.cpp:80-83). The model follows the code. `ProcessedContextPropagates`
and `ProcessThenSend` state that the context survives `after_processing`.

## Model

| member | source | states |
|---|---|---|
| Tracing.DeserializeImpl | src/main.cpp:42-51 | If the read fails, the reader's error is returned and `dst` is left as it was. Otherwise no error is returned and `dst` becomes `trc_data` of the string read. The unread input is whatever the reader left. |
| Tracing.Serialize | src/main.cpp:19-26 | Returns what the writer returns for the payload's string: the bytes written, or the writer's error unchanged. Its partner is `SerializeRoundTrip`. |
| Tracing.SerializeRoundTrip | src/main.cpp:19-51 | With a reader that inverts the writer, when `serialize` succeeds, deserializing the bytes it wrote gives no error and `dst == trc_data(s)`, whatever `dst` held before. It consumes exactly the written bytes. |
| Profiling.Inspect | src/main.cpp:67-76 | The report is "null" exactly when there is no payload and "downcast failed" exactly when the payload is not a `trc_data`. It names a string exactly when the payload is `trc_data` of that string. |
| Profiling.ContextAfterProcessing | src/main.cpp:65-78 | The new active context is the payload's string when the payload is a `trc_data`, and the old active context otherwise. |
| Profiling.Stamp | src/main.cpp:85-88 | The stamped payload is a `trc_data` holding exactly the active context. |
| Profiling.Profiler.constructor | src/main.cpp:54 | A worker's active context starts out empty. |
| Profiling.Profiler.AddActor | src/main.cpp:57-59 | Leaves the active context unchanged. |
| Profiling.Profiler.RemoveActor | src/main.cpp:61-63 | Leaves the active context unchanged. |
| Profiling.Profiler.BeforeProcessing | src/main.cpp:65-78 | Returns the report of `Inspect`. Sets the active context as `ContextAfterProcessing` says, so a missing or mismatched payload leaves it alone. Leaves the element unchanged. |
| Profiling.Profiler.AfterProcessing | src/main.cpp:80-83 | Leaves the active context unchanged, so it outlives the processed message. |
| Profiling.Profiler.BeforeSending | src/main.cpp:85-88 | Overwrites the element's payload with `trc_data(data)`. The active context and the element's sender and content are unchanged. |
| Profiling.Profiler.BeforeSendingScheduled | src/main.cpp:90-94 | Has the same effect as `BeforeSending` for every deadline. |
| Actors.Actor1Reply | src/main.cpp:103 | The reply is the request quoted between `Thanks for sending: "` and `"!`. Its length is the request's length plus 23. |
| Actors.Actor1ReplyInjective | src/main.cpp:103 | Different requests get different replies, so the request can be read back from the reply. |
| Actors.Actor1Handle | src/main.cpp:99-104 | Returns `Actor1Reply(s)` and leaves the worker's active context equal to "actor1 put this here". |
| Actors.Actor2Start | src/main.cpp:108-110 | Sets the worker's active context to "actor2 put this here" before the greeting "Hi, I'm actor2." is sent. |
| Propagation.Run | src/main.cpp:56-110 | Over any run of hook calls and behaviour assignments, every element sent carries a `trc_data` payload, even when the active context is empty. |
| Propagation.RunSendsOncePerSendHook | src/main.cpp:85-94 | A run sends exactly one element per `before_sending` or `before_sending_scheduled` call. |
| Propagation.PropagationLaw | src/main.cpp:65-94 | While nothing replaces the active context, it stays the same and every element sent carries exactly it. |
| Propagation.ProcessedContextPropagates | src/main.cpp:65-94 | After processing an element carrying `trc_data(t)`, the context is `t`, and every later send before a replacement carries `t`. This includes sends after `after_processing`. |
| Propagation.ReplacementLaw | src/main.cpp:85-104 | After the behaviour assigns `t`, the context is `t` and every later send before a replacement carries `t`. Sends made before the assignment keep their payloads. |
| Propagation.InertEventChangesNothing | src/main.cpp:56-83 | Removing one `add_actor`, `remove_actor` or `after_processing` call from any run changes neither the final context nor any sent payload. The same holds for a `before_processing` call on a missing or mismatched payload. |
| Propagation.ScheduledSendIsImmediateSend | src/main.cpp:85-94 | Replacing `before_sending` by `before_sending_scheduled` with any deadline, anywhere in a run, changes nothing. |
| Exchange.ProcessThenSend | src/main.cpp:65-94 | A worker processes one element, finishes, then sends. The send carries `t` if the processed element carried `trc_data(t)`, and the previous context otherwise. The report is the one `Inspect` gives. |
| Exchange.Transmit | src/main.cpp:19-51 | A `trc_data` payload that is serialized and then deserialized by the factory arrives equal to the one sent. |
| Replay.Step | src/main.cpp:56-94 | Performing one event on a worker by calling the matching hook leaves the active context where `After` says and sends the payloads `Emitted` says. |
| Replay.Replay | src/main.cpp:56-94 | Performing a whole run on a worker, hook by hook, ends with the active context `Run` gives and sends exactly the payloads `Run` gives, in order. |
| Exchange.RemoteExchange | src/main.cpp:97-115 | `actor1` receives "Hi, I'm actor2." under the context "actor2 put this here". Its reply, `Thanks for sending: "Hi, I'm actor2."!`, reaches `actor2` under the context "actor1 put this here". |

## Left out

- Process bootstrap (`main`, `std::async`, the 10 ms sleep between the two actor systems) is not modelled. It is startup and concurrency, not context handling.
- Publishing and connecting (`caf::io::publish`, `caf::io::remote_actor`) and their failure messages are not modelled. They are network plumbing inside CAF. `Exchange.RemoteExchange` stands in for them by passing the payload through `Serialize` and `DeserializeImpl`.
- The CAF serializer, deserializer and wire format are not modelled. The string writer and reader are parameters, and that the reader inverts the writer is a precondition.
- Exchange.Transmit: assumes a writer that never fails (`NeverFails`), so it does not model what the runtime does with a message whose payload fails to serialize. `Serialize` itself returns the writer's error. The same holds for `Exchange.RemoteExchange`, which calls it. For the same reason, the model does not say what a failed read does to the reader's position: it passes on whatever the reader returns.
- The textual and binary overloads of `serialize` and `deserialize` have the same bodies. Each pair is modelled once.
- `actor2`'s `request(...).then(...)` and its infinite timeout are not modelled. They are CAF's asynchronous request and response. Only its assignment of the active context and the greeting it sends are modelled. `RemoteExchange` stands in for the round trip.
- Logging (`printf`, `fprintf`, `aout`) is not modelled. `before_processing`'s three messages become the returned `Report`, and the other logging is dropped.
- The processing and sending hooks ignore the actor they are given, so the model drops that parameter from them. `add_actor` and `remove_actor` keep their actor and parent parameters, as `ActorId` values.
- `thread_local` is modelled as one `Profiler` object per worker. Isolation between threads is a concurrency property and is not modelled.
- The `config` wiring of the profiler and factory pointers is not modelled.
