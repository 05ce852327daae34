/** Small wrapper types shared by the dashboards. */
module Common {

  /** A value that may be absent (`undefined` / `null` in the dashboards). */
  datatype Option<+T> = None | Some(value: T)

  /**
   * What a call to the hosted generative-AI service hands back: either the
   * call threw (`Failed`), or it returned, possibly with no text at all
   * (`response.text` is `undefined`).
   */
  datatype ServiceReply = Failed | Replied(text: Option<string>)

  /** What is sent to the translation service: the text and the source and target language names. */
  datatype TranslateRequest = TranslateRequest(text: string, from: string, to: string)

  /** JavaScript's `x || fallback` on an optional string: empty and absent both fall back. */
  function TextOr(text: Option<string>, fallback: string): (r: string)
    ensures r == fallback || (text.Some? && r == text.value)
    ensures r == fallback <== text.None?
    ensures text.Some? && text.value == "" ==> r == fallback
    ensures text.Some? && text.value != "" ==> r == text.value
  {
    if text.Some? && text.value != "" then text.value else fallback
  }
}
