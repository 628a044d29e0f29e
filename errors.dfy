/** Thrown values and the error rewrapping shared by the two search models. */
module Errors {

  /** A value thrown by a call: an `Error` instance with its message, or any other value. */
  datatype Thrown = ErrorObject(message: string) | NonError(shown: string)

  const SearchFailedPrefix: string := "Orama search failed: "
  const UnknownSearchError: string := "Unknown error during search"

  /**
   * The error a search model throws when the remote search call throws:
   * an `Error` keeps its message behind a fixed prefix, anything else gets a fixed message.
   */
  function WrapSearchError(e: Thrown): (r: Thrown)
    ensures r.ErrorObject?
    ensures e.ErrorObject? ==> r.message == SearchFailedPrefix + e.message
    ensures e.NonError? ==> r.message == UnknownSearchError
  {
    match e
    case ErrorObject(m) => ErrorObject(SearchFailedPrefix + m)
    case NonError(_) => ErrorObject(UnknownSearchError)
  }

  /** The original message can be read back from a wrapped `Error`, and the two cases never collide. */
  lemma WrapSearchErrorRecoverable(e: Thrown)
    ensures var r := WrapSearchError(e);
      && (e.ErrorObject? <==> (|SearchFailedPrefix| <= |r.message| && r.message[..|SearchFailedPrefix|] == SearchFailedPrefix))
      && (e.ErrorObject? ==> r.message[|SearchFailedPrefix|..] == e.message)
  {
    var r := WrapSearchError(e);
    if e.NonError? {
      assert r.message[0] == 'U' != SearchFailedPrefix[0];
    }
  }
}
