/**
 The tracing payload a mailbox element may carry, and the codec hooks of the
 demo's `trc_data` (serialize) and `trc_data_fac` (deserialize).

 The string codec of the actor runtime is not part of this model: the writer and
 the reader of one string are parameters. Either may fail with an error; where
 the writer succeeds, the reader is assumed to invert it (`Inverts`).
 */
module Tracing {

  datatype Option<+T> = None | Some(value: T)

  /** A byte of a serialized stream. */
  newtype Byte = b: int | 0 <= b < 256

  /**
   The concrete kind of a `tracing_data` object. The demo defines one kind,
   `trc_data`, holding a string; any other subclass the runtime might attach is
   `OtherKind`, which `before_processing` cannot downcast.
   */
  datatype TracingData = TrcData(s: string) | OtherKind(kind: string)

  /** An error value produced by the runtime's reader; the model passes it on unchanged. */
  datatype CodecError = CodecError(code: nat)

  /** What reading one string from a deserializer yields: the string and the unread input, or an error. */
  datatype ReadResult =
    | Read(value: string, rest: seq<Byte>)
    | ReadError(error: CodecError, rest: seq<Byte>)

  /** What writing one string to a serializer yields: the bytes written, or the serializer's error. */
  datatype WriteResult = Written(bytes: seq<Byte>) | WriteError(error: CodecError)

  /** The reader of strings inverts the writer of strings wherever the write succeeds, whatever follows in the stream. */
  ghost predicate Inverts(write: string -> WriteResult, read: seq<Byte> -> ReadResult) {
    forall s: string, rest: seq<Byte> :: write(s).Written? ==> read(write(s).bytes + rest) == Read(s, rest)
  }

  /** The writer of strings never fails. */
  ghost predicate NeverFails(write: string -> WriteResult) {
    forall s: string :: write(s).Written?
  }

  /**
   `trc_data::serialize`, for the textual and the binary serializer alike: the
   object writes its string and nothing else, and returns whatever the sink
   returns, its error included.
   */
  function Serialize(write: string -> WriteResult, d: TracingData): WriteResult
    requires d.TrcData?
  {
    write(d.s)
  }

  /** What `deserialize_impl` leaves behind: its returned error (None for `{}`), `dst`, and the unread input. */
  datatype Deserialized = Deserialized(err: Option<CodecError>, dst: Option<TracingData>, rest: seq<Byte>)

  /**
   `trc_data_fac::deserialize_impl`: read a string; on failure return the
   reader's error and leave `dst` as it was, otherwise replace `dst` by a fresh
   `trc_data` holding the string read.
   */
  function DeserializeImpl(read: seq<Byte> -> ReadResult, input: seq<Byte>, dst: Option<TracingData>): (r: Deserialized)
    ensures r.err.None? <==> read(input).Read?
    ensures r.err.Some? ==> r.err.value == read(input).error && r.dst == dst
    ensures r.err.None? ==> r.dst == Some(TrcData(read(input).value))
    ensures r.rest == read(input).rest
  {
    match read(input)
    case ReadError(e, rest) => Deserialized(Some(e), dst, rest)
    case Read(value, rest) => Deserialized(None, Some(TrcData(value)), rest)
  }

  /**
   Round trip: when `Serialize` succeeds, deserializing what it wrote reports no error, installs
   an equal `trc_data` whatever `dst` held before, and consumes exactly the bytes
   that were written.
   */
  lemma SerializeRoundTrip(write: string -> WriteResult, read: seq<Byte> -> ReadResult,
                           d: TracingData, rest: seq<Byte>, dst: Option<TracingData>)
    requires Inverts(write, read)
    requires d.TrcData? && Serialize(write, d).Written?
    ensures DeserializeImpl(read, Serialize(write, d).bytes + rest, dst) == Deserialized(None, Some(d), rest)
  {
  }
}
