/** What the two chat components get back from the text-analysis service,
    and JavaScript's `||` on strings, with which they pick the reply. */
module ChatService {
  /** The outcome of the `/analyze/text` request: an accepted answer
      (`response.ok` and `status === 'success'`) with its prediction and
      final response, a refusal with its error text, or no connection.
      An absent field is the empty string: both are falsy. */
  datatype TextOutcome = Answered(prediction: string, finalResponse: string) | Refused(error: string) | NoConnection

  /** `a || b` on strings: a unless it is empty. */
  function Or(a: string, b: string): (r: string)
    ensures a != [] ==> r == a
    ensures a == [] ==> r == b
  {
    if a != [] then a else b
  }

  const Apology := "I apologize, but I couldn't process your request. Please try again or consult a healthcare professional."

  /** The text of an accepted answer. */
  function AnsweredText(prediction: string, finalResponse: string): (r: string)
    ensures r != []
    ensures r == prediction || r == finalResponse || r == Apology
  {
    Or(prediction, Or(finalResponse, Apology))
  }
}
