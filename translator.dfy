/** The translation screen: a text, a source and a target language, and the last translation. */
module Translator {
  import opened Common
  import opened Text
  import Languages

  /**
   * `handleTranslate` up to the service call: nothing for blank input;
   * otherwise the text and the two language names, falling back to
   * "English" and "Akan" for unknown codes.
   */
  function TranslationRequest(text: string, fromLang: string, toLang: string): (r: Option<TranslateRequest>)
    ensures r.None? <==> IsBlank(text)
    ensures r.Some? ==> r.value.text == text
    ensures r.Some? ==> r.value.from == Languages.NameOr(fromLang, "English")
    ensures r.Some? ==> r.value.to == Languages.NameOr(toLang, "Akan")
  {
    if IsBlank(text) then None
    else Some(TranslateRequest(text, Languages.NameOr(fromLang, "English"), Languages.NameOr(toLang, "Akan")))
  }

  /** The shown translation after the call: a reply replaces it (an empty or missing one by ""), a failure keeps it. */
  function TranslatedText(previous: string, reply: ServiceReply): (r: string)
    ensures reply.Failed? ==> r == previous
    ensures reply.Replied? ==> r == (if reply.text.Some? then reply.text.value else "")
  {
    match reply
    case Failed => previous
    case Replied(text) => TextOr(text, "")
  }

  /** The default pair translates from English into Akan. */
  lemma DefaultPair(text: string)
    requires !IsBlank(text)
    ensures TranslationRequest(text, "en", "ak") == Some(TranslateRequest(text, "English", "Akan (Twi)"))
  {
    Languages.NameOrDefaults("English");
    Languages.NameOrDefaults("Akan");
  }

  /** `swapLanguages` on the pair (from, to). */
  function Swapped(pair: (string, string)): (r: (string, string))
    ensures r.0 == pair.1 && r.1 == pair.0
  {
    (pair.1, pair.0)
  }

  /** Swapping twice restores both languages. */
  lemma SwapTwice(pair: (string, string))
    ensures Swapped(Swapped(pair)) == pair
  {
  }

  class Translator {
    var inputText: string
    var translatedText: string
    var fromLang: string
    var toLang: string
    var isLoading: bool

    constructor ()
      ensures inputText == "" && translatedText == "" && fromLang == "en" && toLang == "ak" && !isLoading
    {
      inputText := "";
      translatedText := "";
      fromLang := "en";
      toLang := "ak";
      isLoading := false;
    }

    method EditInput(text: string)
      modifies this`inputText
      ensures inputText == text
    {
      inputText := text;
    }

    method SelectLanguages(source: string, target: string)
      modifies this`fromLang, this`toLang
      ensures fromLang == source && toLang == target
    {
      fromLang := source;
      toLang := target;
    }

    /**
     * The translate button, `handleTranslate` up to the service call, which gets
     * `request`. The button is disabled while loading (and for an empty input,
     * which the handler's own blank test rejects as well).
     */
    method RequestTranslation() returns (request: Option<TranslateRequest>)
      modifies this`isLoading
      ensures old(isLoading) ==> request.None?
      ensures !old(isLoading) ==> request == TranslationRequest(inputText, fromLang, toLang)
      ensures request.None? ==> isLoading == old(isLoading)
      ensures request.Some? ==> isLoading
    {
      if isLoading {
        return None;
      }
      request := TranslationRequest(inputText, fromLang, toLang);
      if request.Some? {
        isLoading := true;
      }
    }

    /** The call settled. */
    method ReceiveTranslation(reply: ServiceReply)
      modifies this`translatedText, this`isLoading
      ensures translatedText == TranslatedText(old(translatedText), reply) && !isLoading
    {
      translatedText := TranslatedText(translatedText, reply);
      isLoading := false;
    }

    /** `swapLanguages`. */
    method SwapLanguages()
      modifies this`fromLang, this`toLang
      ensures (fromLang, toLang) == Swapped((old(fromLang), old(toLang)))
    {
      fromLang, toLang := toLang, fromLang;
    }
  }
}
