/**
 * The remote search-and-answer client, seen only through what it returns.
 * Each operation is a function parameter of the code that calls it, so a model
 * of a call site says what it does for every possible behaviour of the client.
 */
module Client {
  import opened Wrappers
  import opened Types
  import opened Errors

  /** `search(params)`: a hit list, an absent (`null`/`undefined`) result, or a thrown value. */
  type SearchCall = (ClientParams, Params) -> Result<Option<seq<Hit>>, Thrown>

  /** An answer to a one-shot question: a plain string, or an object whose `text` may be absent. */
  datatype Answer = AnswerString(s: string) | AnswerObject(text: Option<string>)

  /**
   * What iterating a streamed answer yields: its chunks in order (`None` for
   * `null` or `undefined`), then either normal exhaustion (`failure == None`)
   * or the value the iteration throws.
   */
  datatype ChunkSource = ChunkSource(chunks: seq<Option<string>>, failure: Option<Thrown>)

  /** `createAnswerSession(params).ask({ term })`. */
  type AskCall = (ClientParams, AnswerSessionParams, string) -> Result<Answer, Thrown>

  /** `createAnswerSession(params).askStream({ term })`: the chunk source, or a thrown value before any chunk. */
  type AskStreamCall = (ClientParams, AnswerSessionParams, string) -> Result<ChunkSource, Thrown>

  /** The answer session a client creates from the given parameters. */
  datatype AnswerSession = AnswerSession(client: ClientParams, params: AnswerSessionParams)
}
