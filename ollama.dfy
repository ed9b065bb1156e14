/** The language-model call (`call_ollama`): the HTTP request itself is an
    input outcome, and what is modelled is how that outcome becomes the
    reply string. */
module Ollama {
  import opened PyStr
  import opened Optional

  /** What the POST to the local generate endpoint produced.
      `Reply(response)`: the request succeeded, `raise_for_status` passed and
      the body decoded; `response` is the body's `response` field, if present.
      `Raised(message)`: any exception on the way (connection failure, the
      60-second timeout, an HTTP error status, an undecodable body), with the
      text Python's `str(e)` gives for it. */
  datatype HttpOutcome = Reply(response: Option<string>) | Raised(message: string)

  const LlmErrorPrefix: string := "Sorry, I ran into an LLM error: "

  /** `call_ollama`: never fails; a failure becomes a visible error reply,
      a success becomes the stripped `response` field (empty when absent). */
  function CallOllama(res: HttpOutcome): string
  {
    match res
    case Raised(m) => LlmErrorPrefix + m
    case Reply(r) => Strip(match r case Some(t) => t case None => "")
  }

  /** A failure reads as the fixed prefix followed by the exception text; a
      success never has whitespace at either end, and is empty when the
      field is missing. */
  lemma CallOllamaShape(res: HttpOutcome)
    ensures res.Raised? ==> LlmErrorPrefix <= CallOllama(res)
                            && CallOllama(res)[|LlmErrorPrefix|..] == res.message
    ensures res.Reply? ==> Trimmed(CallOllama(res))
    ensures res.Reply? && res.response.None? ==> CallOllama(res) == ""
  {
    if res.Reply? {
      StripIsTrimmedSlice(match res.response case Some(t) => t case None => "");
    }
  }

  /** The reply is empty exactly when the call succeeded and the `response`
      field was missing or held only whitespace. */
  lemma CallOllamaEmptyIff(res: HttpOutcome)
    ensures CallOllama(res) == "" <==>
            res.Reply? && (res.response.None? || AllSpace(res.response.value))
  {
    if res.Reply? && res.response.Some? {
      StripEmptyIff(res.response.value);
    }
  }

  /** On success the reply is the `response` text with only its surrounding
      whitespace removed. */
  lemma CallOllamaKeepsText(t: string)
    ensures exists i, j :: 0 <= i <= j <= |t| && CallOllama(Reply(Some(t))) == t[i..j]
                           && AllSpace(t[..i]) && AllSpace(t[j..])
  {
    StripIsTrimmedSlice(t);
  }
}
