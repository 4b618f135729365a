/**
 * The copy, speak and share buttons of frontend/script.js. Each reads the
 * displayed response text and does nothing when it is empty or still holds
 * the validation prompt. The host capabilities they reach (clipboard, speech
 * synthesis, opening a window) are returned as effects rather than performed.
 */
module Actions {
  import opened Wrappers
  import JsString
  import Translation

  /** The fragment of the validation message the guard looks for. */
  const Placeholder: string := "Por favor, escribe"
  const NoSpeechMessage: string := "Tu navegador no soporta la función de texto a voz."
  const SharePrefix: string := "Traducción: "
  const ShareSuffix: string := "\n\nTraducido con Japan Assist – Asistente Japonés"
  const LineShareUrl: string := "https://line.me/R/msg/text/?"

  /** The guard shared by the three actions: they act only on displayed text
      that is non-empty and does not contain the placeholder fragment. */
  function Actionable(text: string): (b: bool)
    ensures b <==> text != "" && !exists i :: JsString.OccursAt(text, Placeholder, i)
  {
    !(text == "" || JsString.Contains(text, Placeholder))
  }

  /** The validation message itself is never acted upon. */
  lemma ValidationMessageIgnored()
    ensures !Actionable(Translation.ValidationMessage)
  {
    assert Translation.ValidationMessage == "" + Placeholder + " algo para traducir.";
    JsString.ContainsMiddle("", Placeholder, " algo para traducir.");
  }

  /** `copyToClipboard`: the text written to the clipboard, if any. Nothing is
      written when the guard fails or the clipboard API is missing. */
  function CopyEffect(displayed: string, clipboardAvailable: bool): (written: Option<string>)
    ensures written.Some? <==> Actionable(displayed) && clipboardAvailable
    ensures written.Some? ==> written.value == displayed
  {
    if Actionable(displayed) && clipboardAvailable then Some(displayed) else None
  }

  /** The utterance `speakText` hands to the speech synthesiser. */
  datatype Utterance = Utterance(text: string, lang: string, rate: real)

  /** What `speakText` does. */
  datatype SpeechEffect = Silent | Speak(utterance: Utterance) | Alert(message: string)

  /** The speech locale for a backend language: Japanese for "ja", Spanish for
      everything else, English included. */
  function SpeechLocale(lang: string): (locale: string)
    ensures locale == "ja-JP" <==> lang == "ja"
    ensures locale == "es-ES" <==> lang != "ja"
  {
    if lang == "ja" then "ja-JP" else "es-ES"
  }

  /** `speakText`: nothing when the guard fails; an alert when speech synthesis
      is missing; otherwise the displayed text spoken at rate 0.9 in the locale
      of the selected direction's language. */
  function SpeakEffect(displayed: string, direction: string, speechAvailable: bool): (e: SpeechEffect)
    ensures e.Silent? <==> !Actionable(displayed)
    ensures e.Alert? <==> Actionable(displayed) && !speechAvailable
    ensures e.Alert? ==> e.message == NoSpeechMessage
    ensures e.Speak? ==> e.utterance.text == displayed && e.utterance.rate == 0.9
    ensures e.Speak? ==>
              (e.utterance.lang == "ja-JP" <==> Translation.LangFromDirection(direction) == "ja")
              && e.utterance.lang in {"ja-JP", "es-ES"}
  {
    if !Actionable(displayed) then Silent
    else if !speechAvailable then Alert(NoSpeechMessage)
    else Speak(Utterance(displayed, SpeechLocale(Translation.LangFromDirection(direction)), 0.9))
  }

  /** The message `shareToLINE` shares, before URI encoding. */
  function ShareText(displayed: string): (message: string)
    ensures |message| == |SharePrefix| + |displayed| + |ShareSuffix|
    ensures message[..|SharePrefix|] == SharePrefix
    ensures message[|SharePrefix|..|SharePrefix| + |displayed|] == displayed
    ensures message[|SharePrefix| + |displayed|..] == ShareSuffix
  {
    SharePrefix + displayed + ShareSuffix
  }

  /** Recovers the translation from a shared message, if it has the shape
      `ShareText` produces. */
  function SharedTranslation(message: string): (displayed: Option<string>)
    ensures displayed.Some? ==> ShareText(displayed.value) == message
  {
    if |message| >= |SharePrefix| + |ShareSuffix|
       && message[..|SharePrefix|] == SharePrefix
       && message[|message| - |ShareSuffix|..] == ShareSuffix
    then
      var t := message[|SharePrefix|..|message| - |ShareSuffix|];
      assert message == SharePrefix + t + ShareSuffix;
      Some(t)
    else None
  }

  /** No translation is lost in the share message. */
  lemma ShareTextRoundTrip(displayed: string)
    ensures SharedTranslation(ShareText(displayed)) == Some(displayed)
  {
  }

  /** `shareToLINE`: the URL opened in a new window, if any; `encode` stands
      for `encodeURIComponent`. */
  function ShareEffect(displayed: string, encode: string -> string): (url: Option<string>)
    ensures url.Some? <==> Actionable(displayed)
    ensures url.Some? ==> url.value == LineShareUrl + encode(ShareText(displayed))
  {
    if Actionable(displayed) then Some(LineShareUrl + encode(ShareText(displayed))) else None
  }
}
