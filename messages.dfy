/** Choosing the search term from a chat history, as both search models do. */
module Messages {
  import opened Wrappers
  import opened Types

  /**
   * The search term: the content of the last message. It is absent when the
   * list is empty or that content is the empty string (both are falsy).
   */
  function SearchTerm(messages: seq<AiMessage>): (q: Option<string>)
    ensures q.Some? <==> |messages| > 0 && messages[|messages| - 1].content != ""
    ensures q.Some? ==> q.value == messages[|messages| - 1].content
  {
    if |messages| == 0 || messages[|messages| - 1].content == "" then None
    else Some(messages[|messages| - 1].content)
  }

  /** Earlier messages never influence the term: only the last one is read. */
  lemma SearchTermIgnoresHistory(history: seq<AiMessage>, last: AiMessage)
    ensures SearchTerm(history + [last]) == SearchTerm([last])
    ensures SearchTerm(history + [last]).Some? ==> SearchTerm(history + [last]).value == last.content
  {
  }
}
