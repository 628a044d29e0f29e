/**
 * The search model: a search that answers with a one-chunk text stream, and the
 * creation of an answer session from host chat messages.
 */
module SearchModel {
  import opened Wrappers
  import opened Types
  import opened Errors
  import opened Streams
  import opened Client
  import opened Messages

  const NoQueryMessage: string := "No search query provided"
  const TextContentType: string := "text/plain; charset=utf-8"

  /** The options removed before the rest is spread into the request. */
  const StrippedOptions: set<string> := {"signal", "type"}

  /** The search request: the term, then every option except `signal` and `type`, spread over it. */
  function SearchModelRequest(term: string, options: Params): (r: Params)
    ensures r.Keys == {"term"} + (options.Keys - StrippedOptions)
    ensures "signal" !in r && "type" !in r
    ensures forall k :: k in options && k !in StrippedOptions ==> r[k] == options[k]
    ensures "term" !in options ==> r["term"] == Str(term)
  {
    map["term" := Str(term)] + (options - StrippedOptions)
  }

  /** The JSON payload of the response: projected hits and the term they were searched for. */
  datatype FormattedResponse = FormattedResponse(searchResults: seq<ProjectedHit>, query: string)

  /** A streaming text response: the chunks of its body stream, that stream's final state, and its content type. */
  datatype TextResponse = TextResponse(body: seq<FormattedResponse>, bodyState: StreamState, contentType: string)

  /** The projected hits of a result, or none when the result is absent. */
  function ResultHits(results: Option<seq<Hit>>): (r: seq<ProjectedHit>)
    ensures results.None? ==> r == []
    ensures results.Some? ==> r == ProjectHits(results.value)
  {
    match results
    case None => []
    case Some(hits) => ProjectHits(hits)
  }

  datatype AnswerSessionConfig = AnswerSessionConfig(
    userContext: Option<Value>,
    inferenceType: Option<InferenceType>,
    initialMessages: Option<seq<AiMessage>>)

  /** A host role as the client knows it: `assistant` stays, `user` and every other role become `user`. */
  function NormaliseRole(role: string): (r: OramaRole)
    ensures r == Assistant <==> role == "assistant"
  {
    if role == "user" then User else if role == "assistant" then Assistant else User
  }

  function RoleName(r: OramaRole): string {
    match r
    case User => "user"
    case Assistant => "assistant"
  }

  /** Normalisation keeps a role exactly when it is `user` or `assistant`, and client roles pass through it unchanged. */
  lemma NormaliseRoleKeepsKnownRoles(role: string, r: OramaRole)
    ensures RoleName(NormaliseRole(role)) == role <==> role == "user" || role == "assistant"
    ensures NormaliseRole(RoleName(r)) == r
  {
  }

  /** Initial messages for the client: same count, order and contents, roles normalised. */
  function ConvertMessages(messages: seq<AiMessage>): (r: seq<OramaMessage>)
    ensures |r| == |messages|
    ensures forall i :: 0 <= i < |messages| ==> r[i].content == messages[i].content && r[i].role == NormaliseRole(messages[i].role)
  {
    seq(|messages|, i requires 0 <= i < |messages| => OramaMessage(NormaliseRole(messages[i].role), messages[i].content))
  }

  /** The session parameters: user context and inference type as given (no default), messages converted. */
  function ConvertSessionConfig(config: AnswerSessionConfig): (p: AnswerSessionParams)
    ensures p.userContext == config.userContext && p.inferenceType == config.inferenceType
    ensures p.initialMessages.Some? <==> config.initialMessages.Some?
    ensures config.initialMessages.Some? ==> p.initialMessages.value == ConvertMessages(config.initialMessages.value)
  {
    AnswerSessionParams(
      config.userContext,
      config.inferenceType,
      match config.initialMessages
      case None => None
      case Some(ms) => Some(ConvertMessages(ms)))
  }

  class OramaSearchModel {
    const client: ClientParams
    var answerSession: Option<AnswerSession>

    constructor (config: ProviderConfig)
      ensures client == ClientParams(config.endpoint, config.apiKey)
      ensures answerSession == None
    {
      client := ClientParams(config.endpoint, config.apiKey);
      answerSession := None;
    }

    /**
     * `search(messages, options)`: rejects a missing or empty last message before searching;
     * a thrown value is rewrapped; otherwise the response body holds exactly one chunk,
     * the projected hits with the term, and is then closed.
     */
    method Search(messages: seq<AiMessage>, options: Params, search: SearchCall) returns (r: Result<TextResponse, Thrown>)
      ensures SearchTerm(messages).None? ==> r == Failure(ErrorObject(NoQueryMessage))
      ensures SearchTerm(messages).Some? ==>
        var term := SearchTerm(messages).value;
        match search(client, SearchModelRequest(term, options))
        case Failure(e) => r == Failure(WrapSearchError(e))
        case Success(results) =>
          && r.Success?
          && r.value.body == [FormattedResponse(ResultHits(results), term)]
          && r.value.bodyState == Closed
          && r.value.contentType == TextContentType
    {
      var term := SearchTerm(messages);
      if term.None? {
        return Failure(ErrorObject(NoQueryMessage));
      }
      match search(client, SearchModelRequest(term.value, options)) {
        case Failure(e) =>
          r := Failure(WrapSearchError(e));
        case Success(results) =>
          var payload := FormattedResponse(ResultHits(results), term.value);
          var controller := new StreamController<FormattedResponse>();
          controller.Enqueue(payload);
          controller.Close();
          r := Success(TextResponse(controller.enqueued, controller.state, TextContentType));
      }
    }

    /** `createAnswerSession(config)`: replaces the stored session with one created from the converted config and returns this model. */
    method CreateAnswerSession(config: AnswerSessionConfig) returns (self: OramaSearchModel)
      modifies this
      ensures self == this
      ensures answerSession == Some(AnswerSession(client, ConvertSessionConfig(config)))
    {
      answerSession := Some(AnswerSession(client, ConvertSessionConfig(config)));
      self := this;
    }
  }
}
