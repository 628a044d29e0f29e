/**
 * The service the provider factory returns, and its two language models:
 * `ask()` answers through an answer session, `search()` reports formatted hits.
 * Both produce the host's result envelope from a one-shot call and a stream of parts.
 */
module OramaService {
  import opened Wrappers
  import opened Types
  import opened Errors
  import opened Streams
  import opened Client
  import opened PromptText
  import opened SearchFormat
  import opened AnswerStream

  /** The service: the client it built and the configuration it was given, both fixed at construction. */
  datatype Service = Service(client: ClientParams, config: ProviderConfig)

  function NewService(config: ProviderConfig): (s: Service)
    ensures s.config == config
    ensures s.client.endpoint == config.endpoint && s.client.apiKey == config.apiKey
  {
    Service(ClientParams(config.endpoint, config.apiKey), config)
  }

  const AskModelId: string := "orama-qa"
  const SearchModelId: string := "orama-search"

  /** The thrown value when the search result is absent and `results.hits` is read from it. */
  const AbsentResultsError: Thrown := ErrorObject("Cannot read properties of undefined (reading 'hits')")

  /** The settings an envelope echoes: a copy of the whole configuration, or the search options. */
  datatype RawSettings = ConfigCopy(config: ProviderConfig) | SearchSettings(options: Params)

  datatype RawCall = RawCall(rawPrompt: string, rawSettings: RawSettings)

  /** The one-shot result envelope (the random response id and the timestamp are not modelled). */
  datatype GenerateResult = GenerateResult(
    text: string,
    finishReason: FinishReason,
    usage: Usage,
    rawCall: RawCall,
    modelId: string)

  /** A streaming result: the parts its stream carries, the stream's final state, and the echoed call. */
  datatype StreamResult = StreamResult(parts: seq<StreamPart>, state: StreamState, rawCall: RawCall)

  /** Usage counts are the JavaScript lengths (UTF-16 code units) of the prompt text and of the completion. */
  function CountUsage(promptText: string, completion: string): (u: Usage)
    ensures u.promptTokens == Utf16Length(promptText) && u.completionTokens == Utf16Length(completion)
    ensures |promptText| <= u.promptTokens && |completion| <= u.completionTokens
  {
    Utf16LengthBounds(promptText);
    Utf16LengthBounds(completion);
    Usage(Utf16Length(promptText), Utf16Length(completion))
  }

  /** The envelope both one-shot calls return: finish reason `stop`, usage counted from the texts. */
  function Envelope(promptText: string, text: string, settings: RawSettings, modelId: string): (g: GenerateResult)
    ensures g.text == text && g.finishReason == Stop
    ensures g.usage.promptTokens == Utf16Length(promptText) && g.usage.completionTokens == Utf16Length(text)
    ensures g.rawCall == RawCall(promptText, settings) && g.modelId == modelId
  {
    GenerateResult(text, Stop, CountUsage(promptText, text), RawCall(promptText, settings), modelId)
  }

  /** The answer session `ask()` opens: the configured user context, inference type defaulting to documentation. */
  function SessionParams(config: ProviderConfig): (p: AnswerSessionParams)
    ensures p.userContext == config.userContext
    ensures p.inferenceType == Some(Documentation)
    ensures p.initialMessages == None
  {
    AnswerSessionParams(config.userContext, Some(config.inferenceType.GetOr(Documentation)), None)
  }

  /** The text of an answer: the string itself, else its `text`, else the empty string. */
  function AnswerText(a: Answer): (t: string)
    ensures a.AnswerString? ==> t == a.s
    ensures a.AnswerObject? && a.text.Some? ==> t == a.text.value
    ensures a.AnswerObject? && a.text.None? ==> t == ""
  {
    match a
    case AnswerString(s) => s
    case AnswerObject(text) => text.GetOr("")
  }

  /**
   * `ask().doGenerate`: asks the prompt text in a new answer session. A thrown value
   * is rethrown unchanged; otherwise the envelope holds the answer's text and its length as usage.
   */
  function AskGenerate(svc: Service, prompt: seq<PromptMessage>, ask: AskCall): (r: Result<GenerateResult, Thrown>)
    ensures var p := ExtractPromptText(prompt);
      match ask(svc.client, SessionParams(svc.config), p)
      case Failure(e) => r == Failure(e)
      case Success(a) =>
        && r.Success?
        && r.value.text == AnswerText(a)
        && r.value.finishReason == Stop
        && r.value.usage == Usage(Utf16Length(p), Utf16Length(AnswerText(a)))
        && r.value.rawCall == RawCall(p, ConfigCopy(svc.config))
        && r.value.modelId == AskModelId
  {
    var p := ExtractPromptText(prompt);
    match ask(svc.client, SessionParams(svc.config), p)
    case Failure(e) => Failure(e)
    case Success(a) => Success(Envelope(p, AnswerText(a), ConfigCopy(svc.config), AskModelId))
  }

  /**
   * `ask().doStream`: asks the prompt text as a stream. A throw from `askStream` rejects the call;
   * otherwise the stream carries what the bridge enqueues and ends closed or errored.
   */
  method AskDoStream(svc: Service, prompt: seq<PromptMessage>, askStream: AskStreamCall) returns (r: Result<StreamResult, Thrown>)
    ensures var p := ExtractPromptText(prompt);
      match askStream(svc.client, SessionParams(svc.config), p)
      case Failure(e) => r == Failure(e)
      case Success(src) =>
        && r.Success?
        && r.value.parts == AnswerStreamParts(p, src)
        && Terminated(r.value.parts)
        && r.value.state == (if src.failure.None? then Closed else Errored(src.failure.value))
        && r.value.rawCall == RawCall(p, ConfigCopy(svc.config))
  {
    var p := ExtractPromptText(prompt);
    match askStream(svc.client, SessionParams(svc.config), p) {
      case Failure(e) =>
        r := Failure(e);
      case Success(src) =>
        var controller := new StreamController<StreamPart>();
        RunAnswerBridge(controller, p, src);
        BridgeTerminates(p, src);
        r := Success(StreamResult(controller.enqueued, controller.state, RawCall(p, ConfigCopy(svc.config))));
    }
  }

  /**
   * The search request: the term and the mode (default `fulltext`), then the configured
   * search options spread over them, so an option of the same name wins.
   */
  function SearchRequest(config: ProviderConfig, term: string): (r: Params)
    ensures var opts := config.searchOptions.GetOr(map[]);
      && r.Keys == {"term", "mode"} + opts.Keys
      && (forall k :: k in opts ==> r[k] == opts[k])
      && ("term" !in opts ==> r["term"] == Str(term))
      && ("mode" !in opts ==> r["mode"] == Str(ModeName(config.searchMode.GetOr(Fulltext))))
  {
    map["term" := Str(term), "mode" := Str(ModeName(config.searchMode.GetOr(Fulltext)))] + config.searchOptions.GetOr(map[])
  }

  /**
   * `search().doGenerate`: searches for the prompt text. A thrown value is rethrown unchanged,
   * an absent result throws on reading its hits, and otherwise the envelope holds the formatted hits.
   */
  function SearchGenerate(svc: Service, prompt: seq<PromptMessage>, search: SearchCall): (r: Result<GenerateResult, Thrown>)
    ensures var p := ExtractPromptText(prompt);
      match search(svc.client, SearchRequest(svc.config, p))
      case Failure(e) => r == Failure(e)
      case Success(None) => r == Failure(AbsentResultsError)
      case Success(Some(hits)) =>
        && r.Success?
        && r.value.text == FormatSearchResults(hits)
        && r.value.finishReason == Stop
        && r.value.usage == Usage(Utf16Length(p), Utf16Length(FormatSearchResults(hits)))
        && r.value.rawCall == RawCall(p, SearchSettings(svc.config.searchOptions.GetOr(map[])))
        && r.value.modelId == SearchModelId
  {
    var p := ExtractPromptText(prompt);
    match search(svc.client, SearchRequest(svc.config, p))
    case Failure(e) => Failure(e)
    case Success(None) => Failure(AbsentResultsError)
    case Success(Some(hits)) =>
      Success(Envelope(p, FormatSearchResults(hits), SearchSettings(svc.config.searchOptions.GetOr(map[])), SearchModelId))
  }

  /** The parts `search().doStream` enqueues for a one-shot result: its text if non-empty, then its finish. */
  function SearchStreamParts(g: GenerateResult): (parts: seq<StreamPart>)
    ensures Terminated(parts) && parts[|parts| - 1].Finish?
    ensures |parts| <= 2
  {
    (if g.text != "" then [TextDelta(g.text)] else []) + [Finish(g.finishReason, g.usage)]
  }

  /**
   * The search stream is terminated by one finish and no error, holds at most one delta,
   * carries the whole one-shot text, and reports the one-shot finish reason and usage.
   */
  lemma SearchStreamShape(g: GenerateResult)
    ensures var parts := SearchStreamParts(g);
      && Terminated(parts)
      && CountFinish(parts) == 1 && CountError(parts) == 0
      && |parts| <= 2
      && (|parts| == 2 <==> g.text != "")
      && (|parts| == 2 ==> parts[0] == TextDelta(g.text))
      && DeltaText(parts) == g.text
      && parts[|parts| - 1] == Finish(g.finishReason, g.usage)
  {
    var parts := SearchStreamParts(g);
    ExactlyOneTerminal(parts);
    if g.text != "" {
      assert parts[..1] == [TextDelta(g.text)];
      assert DeltaText(parts[..1]) == DeltaText([]) + g.text;
    } else {
      assert parts[..0] == [];
    }
  }

  /**
   * `search().doStream`: runs the one-shot search (its rejection rejects the call), then
   * enqueues the parts for its result and closes the stream.
   */
  method SearchDoStream(svc: Service, prompt: seq<PromptMessage>, search: SearchCall) returns (r: Result<StreamResult, Thrown>)
    ensures var p := ExtractPromptText(prompt);
      match SearchGenerate(svc, prompt, search)
      case Failure(e) => r == Failure(e)
      case Success(g) =>
        && r.Success?
        && r.value.parts == SearchStreamParts(g)
        && r.value.state == Closed
        && r.value.rawCall == RawCall(p, SearchSettings(svc.config.searchOptions.GetOr(map[])))
  {
    var results := SearchGenerate(svc, prompt, search);
    match results {
      case Failure(e) =>
        r := Failure(e);
      case Success(g) =>
        var controller := new StreamController<StreamPart>();
        if g.text != "" {
          controller.Enqueue(TextDelta(g.text));
        }
        controller.Enqueue(Finish(g.finishReason, g.usage));
        controller.Close();
        r := Success(StreamResult(controller.enqueued, controller.state,
          RawCall(ExtractPromptText(prompt), SearchSettings(svc.config.searchOptions.GetOr(map[])))));
    }
  }

  /**
   * Over a successful search, the streamed text is exactly the formatted hits and the finish
   * reports its length, unlike the answer stream, whose finish reports 0 completion tokens.
   */
  lemma SearchStreamCarriesFormattedHits(svc: Service, prompt: seq<PromptMessage>, search: SearchCall, hits: seq<Hit>)
    requires search(svc.client, SearchRequest(svc.config, ExtractPromptText(prompt))) == Success(Some(hits))
    ensures SearchGenerate(svc, prompt, search).Success?
    ensures var parts := SearchStreamParts(SearchGenerate(svc, prompt, search).value);
      && DeltaText(parts) == FormatSearchResults(hits)
      && parts[|parts| - 1].usage.completionTokens == Utf16Length(DeltaText(parts))
      && (|parts| == 1 <==> |hits| == 1 && Present(hits[0].document) == [])
  {
    var g := SearchGenerate(svc, prompt, search).value;
    SearchStreamShape(g);
    FormatEmptyIff(hits);
  }
}
