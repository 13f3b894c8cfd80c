/**
 * `generar_respuesta_natural`: bound the serialised result before it goes to
 * the language model, and never let a provider failure escape.
 */
module Summariser {
  import opened Wrappers
  import opened Json

  /** How many characters of the serialised result the model is shown. */
  const Limit: nat := 2000

  /** The answer given when the provider call raises. */
  const Fallback: string := "Tengo los datos pero hubo un error al resumirlos."

  /** What the summarising model is asked about: the user's question and the bounded data. */
  datatype SummaryPrompt = SummaryPrompt(question: Value, data: string)

  /** `s[:2000]`. */
  function Truncate(s: string): (d: string)
    ensures |d| == (if |s| <= Limit then |s| else Limit)
    ensures d == s[..|d|]
  {
    if |s| <= Limit then s else s[..Limit]
  }

  /** The prompt for a question and the `str()` rendering of its results. */
  function PromptFor(question: Value, serialised: string): (p: SummaryPrompt)
    ensures p.question == question
    ensures |p.data| == (if |serialised| <= Limit then |serialised| else Limit)
    ensures p.data == serialised[..|p.data|]
    ensures |serialised| <= Limit ==> p.data == serialised
  {
    SummaryPrompt(question, Truncate(serialised))
  }

  /** The answer for a provider reply: its text, or None when the call raised. */
  function AnswerOf(reply: Option<string>): (a: string)
    ensures reply.Some? ==> a == reply.value
    ensures reply.None? ==> a == Fallback
  {
    match reply
    case Some(text) => text
    case None => Fallback
  }

  /** Appending to a result whose rendering is already past the limit does not change what the model sees. */
  lemma TruncateIgnoresTail(s: string, tail: string)
    requires |s| >= Limit
    ensures Truncate(s + tail) == Truncate(s)
  {
    assert (s + tail)[..Limit] == s[..Limit];
  }
}
