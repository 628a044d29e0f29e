/**
 * The bridge from the answer session's chunk source to the host's stream:
 * each non-null chunk becomes one text delta, verbatim; normal exhaustion ends
 * with one finish part, a failure with one error part and no finish.
 */
module AnswerStream {
  import opened Wrappers
  import opened Errors
  import opened Streams
  import opened Client
  import opened Types

  /** The non-null chunks, in source order. */
  function NonNull(chunks: seq<Option<string>>): seq<string> {
    if chunks == [] then []
    else NonNull(chunks[..|chunks| - 1]) + (if chunks[|chunks| - 1].Some? then [chunks[|chunks| - 1].value] else [])
  }

  /** One text delta per non-null chunk, carrying the chunk unchanged. */
  function Deltas(chunks: seq<Option<string>>): (parts: seq<StreamPart>)
    ensures forall i :: 0 <= i < |parts| ==> parts[i].TextDelta?
    ensures |parts| == |NonNull(chunks)|
  {
    if chunks == [] then []
    else Deltas(chunks[..|chunks| - 1]) + (if chunks[|chunks| - 1].Some? then [TextDelta(chunks[|chunks| - 1].value)] else [])
  }

  /** The finish part of a normally exhausted answer stream: completion tokens are reported as 0. */
  function AnswerFinish(promptText: string): (p: StreamPart)
    ensures p.Finish? && p.finishReason == Stop
    ensures p.usage.promptTokens == Utf16Length(promptText) && p.usage.completionTokens == 0
  {
    Finish(Stop, Usage(Utf16Length(promptText), 0))
  }

  /** Everything the bridge enqueues for a given source. */
  function AnswerStreamParts(promptText: string, src: ChunkSource): (parts: seq<StreamPart>)
    ensures Terminated(parts)
    ensures parts[|parts| - 1].Finish? <==> src.failure.None?
  {
    Deltas(src.chunks) + [if src.failure.None? then AnswerFinish(promptText) else ErrorPart(src.failure.value)]
  }

  /** Delta i carries exactly the i-th non-null chunk: no accumulation, no reordering, no loss. */
  lemma {:induction false} DeltasAreChunks(chunks: seq<Option<string>>)
    ensures |Deltas(chunks)| == |NonNull(chunks)|
    ensures forall i :: 0 <= i < |Deltas(chunks)| ==> Deltas(chunks)[i] == TextDelta(NonNull(chunks)[i])
  {
    if chunks != [] {
      DeltasAreChunks(chunks[..|chunks| - 1]);
    }
  }

  /** The delta of a chunk depends on that chunk alone: the translation distributes over concatenation. */
  lemma {:induction false} DeltasAppend(a: seq<Option<string>>, b: seq<Option<string>>)
    ensures Deltas(a + b) == Deltas(a) + Deltas(b)
    decreases |b|
  {
    if b == [] {
      assert a + b == a;
    } else {
      var b' := b[..|b| - 1];
      assert (a + b)[..|a + b| - 1] == a + b';
      DeltasAppend(a, b');
    }
  }

  /** The streamed text is the concatenation of the non-null chunks. */
  lemma {:induction false} DeltaTextIsChunkText(chunks: seq<Option<string>>)
    ensures DeltaText(Deltas(chunks)) == Concat(NonNull(chunks))
  {
    if chunks != [] {
      var init := chunks[..|chunks| - 1];
      DeltaTextIsChunkText(init);
      var ds := Deltas(chunks);
      if chunks[|chunks| - 1].Some? {
        assert ds[..|ds| - 1] == Deltas(init);
        ConcatSnoc(NonNull(init), chunks[|chunks| - 1].value);
      } else {
        assert ds == Deltas(init);
        assert NonNull(chunks) == NonNull(init);
      }
    }
  }

  function Concat(ss: seq<string>): string {
    if ss == [] then "" else Concat(ss[..|ss| - 1]) + ss[|ss| - 1]
  }

  lemma ConcatSnoc(ss: seq<string>, s: string)
    ensures Concat(ss + [s]) == Concat(ss) + s
  {
    assert (ss + [s])[..|ss|] == ss;
  }

  /**
   * The bridge always terminates the stream: deltas, then exactly one terminal part,
   * which is a finish exactly when the source was exhausted normally.
   */
  lemma BridgeTerminates(promptText: string, src: ChunkSource)
    ensures Terminated(AnswerStreamParts(promptText, src))
    ensures CountFinish(AnswerStreamParts(promptText, src)) == (if src.failure.None? then 1 else 0)
    ensures CountError(AnswerStreamParts(promptText, src)) == (if src.failure.Some? then 1 else 0)
  {
    var parts := AnswerStreamParts(promptText, src);
    assert parts[..|parts| - 1] == Deltas(src.chunks);
    ExactlyOneTerminal(parts);
  }

  /**
   * The `start` callback of the answer stream: enqueue a delta for each non-null chunk,
   * then a finish part and close, or, when iteration throws, an error part and error the stream.
   */
  method RunAnswerBridge(controller: StreamController<StreamPart>, promptText: string, src: ChunkSource)
    requires controller.state == Readable && controller.enqueued == []
    modifies controller
    ensures controller.enqueued == AnswerStreamParts(promptText, src)
    ensures controller.state == if src.failure.None? then Closed else Errored(src.failure.value)
  {
    var i := 0;
    while i < |src.chunks|
      invariant 0 <= i <= |src.chunks|
      invariant controller.state == Readable
      invariant controller.enqueued == Deltas(src.chunks[..i])
    {
      assert src.chunks[..i + 1][..i] == src.chunks[..i];
      if src.chunks[i].Some? {
        controller.Enqueue(TextDelta(src.chunks[i].value));
      }
      i := i + 1;
    }
    assert src.chunks[..i] == src.chunks;
    match src.failure {
      case None =>
        controller.Enqueue(AnswerFinish(promptText));
        controller.Close();
      case Some(e) =>
        controller.Enqueue(ErrorPart(e));
        controller.Error(e);
    }
  }
}
