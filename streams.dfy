/**
 * The host's stream protocol: the parts a language-model stream carries, and
 * the controller through which a stream's producer enqueues them.
 */
module Streams {
  import opened Errors

  datatype FinishReason = Stop | Length | ContentFilter | ToolCalls | ErrorReason | OtherReason | UnknownReason

  /** Token usage; the adapter counts UTF-16 code units of text. */
  datatype Usage = Usage(promptTokens: nat, completionTokens: nat)

  /** One part of a language-model stream. */
  datatype StreamPart =
    | TextDelta(textDelta: string)
    | Finish(finishReason: FinishReason, usage: Usage)
    | ErrorPart(error: Thrown)

  predicate IsTerminal(p: StreamPart) {
    p.Finish? || p.ErrorPart?
  }

  /** Zero or more text deltas followed by exactly one terminal part. */
  predicate Terminated(parts: seq<StreamPart>) {
    && |parts| > 0
    && IsTerminal(parts[|parts| - 1])
    && forall i :: 0 <= i < |parts| - 1 ==> parts[i].TextDelta?
  }

  function CountFinish(parts: seq<StreamPart>): nat {
    if parts == [] then 0 else CountFinish(parts[..|parts| - 1]) + (if parts[|parts| - 1].Finish? then 1 else 0)
  }

  function CountError(parts: seq<StreamPart>): nat {
    if parts == [] then 0 else CountError(parts[..|parts| - 1]) + (if parts[|parts| - 1].ErrorPart? then 1 else 0)
  }

  /** The text the deltas of a stream carry, concatenated in order. */
  function DeltaText(parts: seq<StreamPart>): string {
    if parts == [] then "" else DeltaText(parts[..|parts| - 1]) + (if parts[|parts| - 1].TextDelta? then parts[|parts| - 1].textDelta else "")
  }

  lemma {:induction false} NoTerminalsAmongDeltas(parts: seq<StreamPart>)
    requires forall i :: 0 <= i < |parts| ==> parts[i].TextDelta?
    ensures CountFinish(parts) == 0 && CountError(parts) == 0
  {
    if parts != [] {
      NoTerminalsAmongDeltas(parts[..|parts| - 1]);
    }
  }

  /** A terminated stream holds exactly one terminal part: one finish or one error, never both. */
  lemma {:induction false} ExactlyOneTerminal(parts: seq<StreamPart>)
    requires Terminated(parts)
    ensures CountFinish(parts) + CountError(parts) == 1
    ensures CountFinish(parts) == 1 <==> parts[|parts| - 1].Finish?
    ensures CountError(parts) == 1 <==> parts[|parts| - 1].ErrorPart?
  {
    NoTerminalsAmongDeltas(parts[..|parts| - 1]);
  }

  /** The lifecycle of a readable stream as its controller sees it. */
  datatype StreamState = Readable | Closed | Errored(reason: Thrown)

  /**
   * The controller handed to a stream's `start` callback. `enqueued` records
   * every chunk enqueued, in order; once closed or errored nothing more can be enqueued.
   */
  class StreamController<T> {
    var enqueued: seq<T>
    var state: StreamState

    constructor ()
      ensures enqueued == [] && state == Readable
    {
      enqueued := [];
      state := Readable;
    }

    method Enqueue(x: T)
      requires state == Readable
      modifies this
      ensures enqueued == old(enqueued) + [x] && state == Readable
    {
      enqueued := enqueued + [x];
    }

    method Close()
      requires state == Readable
      modifies this
      ensures enqueued == old(enqueued) && state == Closed
    {
      state := Closed;
    }

    method Error(e: Thrown)
      requires state == Readable
      modifies this
      ensures enqueued == old(enqueued) && state == Errored(e)
    {
      state := Errored(e);
    }
  }
}
