/**
 The two demo behaviours, as far as they touch the active context: `actor1`
 answers a string with a thank-you string and replaces the active context;
 `actor2` sets its own active context before sending its greeting.
 */
module Actors {
  import opened Profiling

  /** The value `actor1` writes into the active context while handling a message. */
  const Actor1Context: string := "actor1 put this here"

  /** The value `actor2` writes into the active context before it sends. */
  const Actor2Context: string := "actor2 put this here"

  /** The string `actor2` sends to `actor1`. */
  const Actor2Greeting: string := "Hi, I'm actor2."

  /** The text around the quoted request in `actor1`'s reply. */
  const ReplyPrefix: string := "Thanks for sending: \""
  const ReplySuffix: string := "\"!"

  /**
   `actor1`'s reply to a string: the request quoted between `ReplyPrefix` and
   `ReplySuffix`, so the request can be read back out of the reply.
   */
  function Actor1Reply(s: string): (r: string)
    ensures |r| == |ReplyPrefix| + |s| + |ReplySuffix|
    ensures r[..|ReplyPrefix|] == ReplyPrefix
    ensures r[|ReplyPrefix|..|ReplyPrefix| + |s|] == s
    ensures r[|ReplyPrefix| + |s|..] == ReplySuffix
  {
    ReplyPrefix + s + ReplySuffix
  }

  /** Distinct requests get distinct replies. */
  lemma Actor1ReplyInjective(s1: string, s2: string)
    requires Actor1Reply(s1) == Actor1Reply(s2)
    ensures s1 == s2
  {
  }

  /** `actor1`'s handler, run on a worker: replace that worker's active context and reply. */
  method Actor1Handle(worker: Profiler, s: string) returns (reply: string)
    modifies worker
    ensures worker.data == Actor1Context
    ensures reply == Actor1Reply(s)
  {
    worker.data := Actor1Context;
    reply := ReplyPrefix + s + ReplySuffix;
  }

  /** `actor2`'s start: set the worker's active context, then hand over the greeting to be sent. */
  method Actor2Start(worker: Profiler) returns (request: string)
    modifies worker
    ensures worker.data == Actor2Context
    ensures request == Actor2Greeting
  {
    worker.data := Actor2Context;
    request := Actor2Greeting;
  }
}
