/**
 * Extracting the query text from a host prompt. Only the first message's
 * first content element is read.
 */
module PromptText {

  /** An element of a message's content array, by whether it is a string or has a `text` property. */
  datatype ContentPart = StringPart(s: string) | TextPart(text: string) | NoTextPart

  /**
   * A message's content: system messages carry one string, all other roles an array of parts.
   * Indexing the string with `[0]` yields its first UTF-16 code unit.
   */
  datatype Content = Whole(s: string) | Parts(parts: seq<ContentPart>)

  datatype PromptMessage = PromptMessage(role: string, content: Content)

  /** The text a message holds, read in order: the whole string, or the concatenated texts of its parts. */
  function MessageText(m: PromptMessage): string {
    match m.content
    case Whole(s) => s
    case Parts(ps) => PartsText(ps)
  }

  function PartText(p: ContentPart): string {
    match p
    case StringPart(s) => s
    case TextPart(t) => t
    case NoTextPart => ""
  }

  function PartsText(ps: seq<ContentPart>): string {
    if ps == [] then "" else PartText(ps[0]) + PartsText(ps[1..])
  }

  /**
   * The prompt text: `''` when there is no first message or its content has no
   * first element; a string element verbatim; the `text` of an object element; `''` otherwise.
   */
  function ExtractPromptText(prompt: seq<PromptMessage>): (r: string)
    ensures |prompt| == 0 ==> r == ""
    ensures |prompt| > 0 ==> r <= MessageText(prompt[0])
    ensures |prompt| > 0 && prompt[0].content.Parts? && |prompt[0].content.parts| > 0 ==>
      r == PartText(prompt[0].content.parts[0])
    ensures |prompt| > 0 && prompt[0].content.Whole? ==> |r| == if prompt[0].content.s == "" then 0 else 1
  {
    if |prompt| == 0 then ""
    else match prompt[0].content
      case Whole(s) => if |s| == 0 then "" else s[..1]
      case Parts(ps) => if |ps| == 0 then "" else PartText(ps[0])
  }

  /** Only the first message is read: whatever follows it, including the latest user turn, is ignored. */
  lemma ExtractReadsFirstMessageOnly(first: PromptMessage, rest: seq<PromptMessage>)
    ensures ExtractPromptText([first] + rest) == ExtractPromptText([first])
  {
  }

  /**
   * A prompt that opens with a system message yields that message's first character,
   * not the user's question. (For a character outside the Basic Multilingual Plane,
   * JavaScript yields only its first UTF-16 code unit, which a Dafny string cannot hold.)
   */
  lemma {:induction false} SystemPromptGivesFirstCharacter(system: string, user: string)
    requires |system| > 0
    ensures ExtractPromptText([PromptMessage("system", Whole(system)), PromptMessage("user", Parts([TextPart(user)]))]) == [system[0]]
  {
  }
}
