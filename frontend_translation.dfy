/**
 * The translation flow of frontend/script.js: the direction selector's
 * language table, the request the page sends, how each fetch outcome is
 * rendered, and the page state that `handleTranslation` updates step by step.
 *
 * The network exchange is an input: a `FetchOutcome` says what `fetch`
 * and the body parsers produced.
 */
module Translation {
  import opened Wrappers
  import JsString

  const ValidationMessage: string := "Por favor, escribe algo para traducir."
  const ErrorMessage: string := "Lo siento, no pude procesar tu solicitud. Inténtalo de nuevo."
  const ErrorColor: string := "#ef4444"
  const AudioUriPrefix: string := "data:audio/mpeg;base64,"

  /** The three directions that ask for Japanese output. */
  const JapaneseDirections: set<string> := {"es-ja", "es-ja-hiragana", "es-ja-katakana"}

  /** The selector's table: direction -> language code for the backend. */
  const DirectionTable: map<string, string> :=
    map["es-ja" := "ja", "ja-es" := "es", "es-ja-hiragana" := "ja", "es-ja-katakana" := "ja"]

  /** `getLangFromDirection`: the table's entry when it has a truthy one, else "en". */
  function LangFromDirection(direction: string): (lang: string)
    ensures lang == "ja" <==> direction in JapaneseDirections
    ensures lang == "es" <==> direction == "ja-es"
    ensures lang == "en" <==> direction !in JapaneseDirections && direction != "ja-es"
  {
    var entry := if direction in DirectionTable then Some(DirectionTable[direction]) else None;
    if entry.Some? && entry.value != "" then entry.value else "en"
  }

  /** The JSON body `{ text, lang }` posted to the chat endpoint. */
  datatype ChatBody = ChatBody(text: string, lang: string)

  /** The fields of a parsed success body; `None` stands for a field that is
      missing or null. */
  datatype Payload = Payload(text: Option<string>, audioBase64: Option<string>)

  /** What the exchange produced: `fetch` rejected, or a response arrived with
      its status, its body as text, and that body parsed as a JSON object
      (`None` when `response.json()` would reject). */
  datatype FetchOutcome =
    | NetworkError
    | Response(status: int, body: string, json: Option<Payload>)

  /** `response.ok`: the status is in the range 200-299. */
  predicate StatusOk(status: int) {
    200 <= status <= 299
  }

  /** The request `handleTranslation` sends for the raw input and the chosen
      direction: none for blank input, otherwise the trimmed text and the
      direction's language. */
  function Request(input: string, direction: string): (req: Option<ChatBody>)
    ensures req.None? <==> JsString.AllWhitespace(input)
    ensures req.Some? ==> req.value.text != "" && req.value.text == JsString.Trim(input)
    ensures req.Some? ==> !JsString.IsWhitespace(req.value.text[0])
                          && !JsString.IsWhitespace(req.value.text[|req.value.text| - 1])
    ensures req.Some? ==> req.value.lang == LangFromDirection(direction)
    ensures req.Some? ==> req.value.lang in {"ja", "es", "en"}
  {
    var text := JsString.Trim(input);
    if text == "" then None else Some(ChatBody(text, LangFromDirection(direction)))
  }

  /** The parsed data that reaches the rendering code: only a response whose
      status is OK and whose body parses gets that far; everything else
      throws into the catch block. */
  function Received(outcome: FetchOutcome): (data: Option<Payload>)
    ensures data.Some? <==> outcome.Response? && StatusOk(outcome.status) && outcome.json.Some?
    ensures data.Some? ==> data == outcome.json
  {
    match outcome
    case NetworkError => None
    case Response(status, _, json) => if StatusOk(status) then json else None
  }

  /** What assigning an optional string to `textContent` displays: null and
      undefined display as the empty string. */
  function TextContent(value: Option<string>): (shown: string)
    ensures value.Some? ==> shown == value.value
    ensures value.None? ==> shown == ""
  {
    value.GetOr("")
  }

  /** JavaScript truthiness of an optional string: present and non-empty. */
  predicate Truthy(value: Option<string>) {
    value.Some? && value.value != ""
  }

  /** The `data:` URI handed to the audio player for a base64 payload. */
  function AudioUri(base64: string): (uri: string)
    ensures |uri| == |AudioUriPrefix| + |base64|
    ensures uri[..|AudioUriPrefix|] == AudioUriPrefix && uri[|AudioUriPrefix|..] == base64
  {
    AudioUriPrefix + base64
  }

  /** A change to the audio player: hide it, or show it with a new source. */
  datatype AudioChange = HideAudio | ShowAudio(src: string)

  /** What the try/catch block writes: the response text, the colour (`None`
      when it is left as it was) and the audio player change. */
  datatype Rendering = Rendering(text: string, color: Option<string>, audio: AudioChange)

  /** The rendering of an outcome. Every failure (network error, non-OK status,
      unparsable body) shows the same fixed message in the error colour with
      the audio hidden, whatever the server sent; a success shows `data.text`,
      and the audio exactly when `audio_base64` is truthy. */
  function RenderOutcome(outcome: FetchOutcome): (r: Rendering)
    ensures Received(outcome).None? ==> r == Rendering(ErrorMessage, Some(ErrorColor), HideAudio)
    ensures outcome.Response? && !StatusOk(outcome.status) ==> r.text == ErrorMessage
    ensures Received(outcome).Some? ==>
              var data := Received(outcome).value;
              r.text == TextContent(data.text) && r.color.None?
              && (r.audio.ShowAudio? <==> Truthy(data.audioBase64))
              && (r.audio.ShowAudio? ==> r.audio.src == AudioUri(data.audioBase64.value))
  {
    match Received(outcome)
    case None => Rendering(ErrorMessage, Some(ErrorColor), HideAudio)
    case Some(data) =>
      var audio := if Truthy(data.audioBase64) then ShowAudio(AudioUri(data.audioBase64.value)) else HideAudio;
      Rendering(TextContent(data.text), None, audio)
  }

  /** The part of the document `handleTranslation` reads and writes. */
  class Page {
    var userInput: string        // userInput.value
    var direction: string        // langSelector.value
    var responseText: string     // responseArea.textContent
    var responseColor: string    // responseArea.style.color
    var audioVisible: bool       // audioPlayer.style.display is 'block' rather than 'none'
    var audioSrc: string         // audioPlayer.src
    var loadingVisible: bool     // loadingIndicator.style.display is 'block' rather than 'none'
    var sendDisabled: bool       // sendBtn.disabled

    /** The page as its markup leaves it; the markup is not part of this
        model, so every control's starting value is a parameter. */
    constructor (userInput: string, direction: string, responseText: string, audioVisible: bool,
                 loadingVisible: bool)
      ensures this.userInput == userInput && this.direction == direction
      ensures this.responseText == responseText && responseColor == ""
      ensures this.audioVisible == audioVisible && audioSrc == ""
      ensures this.loadingVisible == loadingVisible && !sendDisabled
    {
      this.userInput := userInput;
      this.direction := direction;
      this.responseText := responseText;
      responseColor := "";
      this.audioVisible := audioVisible;
      audioSrc := "";
      this.loadingVisible := loadingVisible;
      sendDisabled := false;
    }

    /** The `DOMContentLoaded` listener: a sample sentence in the input and the
        audio player hidden. */
    method OnContentLoaded()
      modifies this
      ensures userInput == "Hola, me encanta la cultura japonesa." && !audioVisible
      ensures direction == old(direction) && responseText == old(responseText)
      ensures responseColor == old(responseColor) && audioSrc == old(audioSrc)
      ensures loadingVisible == old(loadingVisible) && sendDisabled == old(sendDisabled)
    {
      userInput := "Hola, me encanta la cultura japonesa.";
      audioVisible := false;
    }

    /** `handleTranslation` up to the `await`: validates the input and either
        shows the validation message and sends nothing, or enters the loading
        state and sends the request. */
    method Submit() returns (sent: Option<ChatBody>)
      modifies this
      ensures sent == Request(old(userInput), old(direction))
      ensures userInput == old(userInput) && direction == old(direction)
      // blank input: the validation message, loading indicator and send button untouched
      ensures sent.None? ==>
                responseText == ValidationMessage && responseColor == ErrorColor && !audioVisible
                && audioSrc == old(audioSrc)
                && loadingVisible == old(loadingVisible) && sendDisabled == old(sendDisabled)
      // otherwise: colour reset, loading shown, send disabled, output cleared
      ensures sent.Some? ==>
                responseColor == "" && loadingVisible && sendDisabled && responseText == ""
                && audioVisible == old(audioVisible) && audioSrc == old(audioSrc)
    {
      var text := JsString.Trim(userInput);
      var lang := LangFromDirection(direction);
      ghost var request := Request(userInput, direction);
      if text == "" {
        responseText := ValidationMessage;
        responseColor := ErrorColor;
        audioVisible := false;
        assert request == None;
        return None;
      }
      responseColor := "";
      loadingVisible := true;
      sendDisabled := true;
      responseText := "";
      sent := Some(ChatBody(text, lang));
      assert sent == request;
    }

    /** `handleTranslation` after the `await`: renders the outcome, then leaves
        the loading state whatever the outcome was. */
    method Complete(outcome: FetchOutcome) returns (playRequested: bool)
      modifies this
      ensures var r := RenderOutcome(outcome);
              responseText == r.text
              && responseColor == (if r.color.Some? then r.color.value else old(responseColor))
              && audioVisible == r.audio.ShowAudio?
              && audioSrc == (if r.audio.ShowAudio? then r.audio.src else old(audioSrc))
      ensures playRequested <==> RenderOutcome(outcome).audio.ShowAudio?
      ensures !loadingVisible && !sendDisabled
      ensures userInput == old(userInput) && direction == old(direction)
    {
      playRequested := false;
      var data := Received(outcome);
      if data.None? {
        responseText := ErrorMessage;
        responseColor := ErrorColor;
        audioVisible := false;
      } else {
        responseText := TextContent(data.value.text);
        if Truthy(data.value.audioBase64) {
          audioSrc := AudioUri(data.value.audioBase64.value);
          audioVisible := true;
          // play() is fired and its rejection only logged: nothing flows back
          playRequested := true;
        } else {
          audioVisible := false;
        }
      }
      loadingVisible := false;
      sendDisabled := false;
    }

    /** The whole of `handleTranslation` for one outcome of the exchange. */
    method HandleTranslation(outcome: FetchOutcome) returns (sent: Option<ChatBody>)
      modifies this
      ensures sent == Request(old(userInput), old(direction))
      ensures userInput == old(userInput) && direction == old(direction)
      ensures sent.None? ==>
                responseText == ValidationMessage && responseColor == ErrorColor && !audioVisible
                && audioSrc == old(audioSrc)
                && loadingVisible == old(loadingVisible) && sendDisabled == old(sendDisabled)
      // every request leaves the loading state, on every outcome
      ensures sent.Some? ==> !loadingVisible && !sendDisabled
      ensures sent.Some? ==>
                var r := RenderOutcome(outcome);
                responseText == r.text
                && responseColor == (if r.color.Some? then r.color.value else "")
                && audioVisible == r.audio.ShowAudio?
                && audioSrc == (if r.audio.ShowAudio? then r.audio.src else old(audioSrc))
    {
      sent := Submit();
      if sent.Some? {
        var _ := Complete(outcome);
      }
    }
  }
}
