/**
 * The chat language model's search: the last message is the term, a fixed set of
 * options is forwarded, hits are projected, and search failures are rewrapped.
 */
module ChatModel {
  import opened Wrappers
  import opened Types
  import opened Errors
  import opened Client
  import opened Messages

  datatype OramaConfig = OramaConfig(endpoint: string, apiKey: string)

  /** The chat model; its client is built once by the constructor and never replaced. */
  datatype ChatLanguageModel = ChatLanguageModel(client: ClientParams)

  function NewChatLanguageModel(config: OramaConfig): (m: ChatLanguageModel)
    ensures m.client == ClientParams(Some(config.endpoint), Some(config.apiKey))
  {
    ChatLanguageModel(ClientParams(Some(config.endpoint), Some(config.apiKey)))
  }

  const NoContentMessage: string := "No message content to search"

  /** The options copied into the request; `signal` and every other option are dropped. */
  const ForwardedOptions: set<string> := {"limit", "where", "mode", "offset", "sortBy", "facets"}

  /** The search request: the term, and each forwarded option as read from `options` (possibly `undefined`). */
  function ChatSearchRequest(term: string, options: Params): (r: Params)
    ensures r.Keys == {"term"} + ForwardedOptions
    ensures "signal" !in r
    ensures r["term"] == Str(term)
    ensures forall k :: k in ForwardedOptions ==> r[k] == Lookup(options, k)
  {
    map[
      "term" := Str(term),
      "limit" := Lookup(options, "limit"),
      "where" := Lookup(options, "where"),
      "mode" := Lookup(options, "mode"),
      "offset" := Lookup(options, "offset"),
      "sortBy" := Lookup(options, "sortBy"),
      "facets" := Lookup(options, "facets")]
  }

  datatype OramaResponse = OramaResponse(hits: seq<ProjectedHit>)

  /**
   * `search(messages, options)`: rejects a missing or empty last message before searching;
   * an absent result gives no hits, a hit list is projected in order, and a thrown value is rewrapped.
   */
  function ChatSearch(model: ChatLanguageModel, messages: seq<AiMessage>, options: Params, search: SearchCall): (r: Result<OramaResponse, Thrown>)
    ensures SearchTerm(messages).None? ==> r == Failure(ErrorObject(NoContentMessage))
    ensures SearchTerm(messages).Some? ==>
      match search(model.client, ChatSearchRequest(SearchTerm(messages).value, options))
      case Failure(e) => r == Failure(WrapSearchError(e))
      case Success(None) => r == Success(OramaResponse([]))
      case Success(Some(hits)) =>
        && r.Success?
        && |r.value.hits| == |hits|
        && forall i :: 0 <= i < |hits| ==> r.value.hits[i] == ProjectedHit(hits[i].document, hits[i].score)
  {
    match SearchTerm(messages)
    case None => Failure(ErrorObject(NoContentMessage))
    case Some(term) =>
      match search(model.client, ChatSearchRequest(term, options))
      case Failure(e) => Failure(WrapSearchError(e))
      case Success(None) => Success(OramaResponse([]))
      case Success(Some(hits)) => Success(OramaResponse(ProjectHits(hits)))
  }

  /**
   * Every failure of the chat search is an `Error` instance, and a search failure is
   * recognisable by its prefix exactly when the client threw an `Error`.
   */
  lemma ChatSearchFailuresAreErrors(model: ChatLanguageModel, messages: seq<AiMessage>, options: Params, search: SearchCall)
    ensures ChatSearch(model, messages, options, search).Failure? ==> ChatSearch(model, messages, options, search).error.ErrorObject?
    ensures SearchTerm(messages).Some? && search(model.client, ChatSearchRequest(SearchTerm(messages).value, options)).Failure? ==>
      var e := search(model.client, ChatSearchRequest(SearchTerm(messages).value, options)).error;
      var m := ChatSearch(model, messages, options, search).error.message;
      (e.ErrorObject? <==> |SearchFailedPrefix| <= |m| && m[..|SearchFailedPrefix|] == SearchFailedPrefix)
  {
    if SearchTerm(messages).Some? {
      var e := search(model.client, ChatSearchRequest(SearchTerm(messages).value, options));
      if e.Failure? {
        WrapSearchErrorRecoverable(e.error);
      }
    }
  }
}
