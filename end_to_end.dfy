/**
 * Properties that span frontend/script.js and backend/main.py: what the page
 * sends is what the endpoint reads, neither table's fallback fires for it, and
 * the endpoint's response renders as the page expects.
 */
module EndToEnd {
  import opened Wrappers
  import Translation
  import Chat

  /** Every language the page can send is a key of both backend tables, so the
      names and voices it gets are table entries, never the fallbacks. */
  lemma SentLanguagesAreKnown(direction: string)
    ensures var lang := Translation.LangFromDirection(direction);
            lang in Chat.LangPrompts && lang in Chat.VoiceMap
            && Chat.LangName(lang) == Chat.LangPrompts[lang]
            && Chat.VoiceName(lang) == Chat.VoiceMap[lang]
  {
    var lang := Translation.LangFromDirection(direction);
    assert lang == "ja" || lang == "es" || lang == "en";
  }

  /** The backend reads back exactly the request the page sends, and picks the
      voice of the direction's target language: Japanese for the three
      Japanese directions, Mexican Spanish for "ja-es", American English
      otherwise. */
  lemma RequestReachesBackend(input: string, direction: string)
    requires Translation.Request(input, direction).Some?
    ensures var body := Translation.Request(input, direction).value;
            Chat.ParseChatRequest(Some(body.text), Some(body.lang)) == Some(Chat.ChatRequest(body.text, body.lang))
    ensures var v := Chat.Voice(Translation.Request(input, direction).value.lang);
            (direction in Translation.JapaneseDirections ==> v.name == "ja-JP-Neural2-B")
            && (direction == "ja-es" ==> v.name == "es-MX-Neural2-F")
            && (direction !in Translation.JapaneseDirections && direction != "ja-es" ==> v.name == "en-US-Neural2-F")
  {
  }

  /** The page's view of a serialised response dictionary: a string field is
      present, a null or missing one is not. */
  function PayloadOf(response: map<string, Chat.Json>): (data: Translation.Payload)
    ensures "text" in response && response["text"].JString? ==> data.text == Some(response["text"].s)
    ensures ("audio_base64" !in response || response["audio_base64"].JNull?) ==> data.audioBase64.None?
    ensures "audio_base64" in response && response["audio_base64"].JString? ==>
              data.audioBase64 == Some(response["audio_base64"].s)
  {
    Translation.Payload(Field(response, "text"), Field(response, "audio_base64"))
  }

  /** One field of the dictionary as the page sees it after `response.json()`:
      a string value arrives as itself, a null or missing one as absent. */
  function Field(response: map<string, Chat.Json>, key: string): (value: Option<string>)
    ensures value.None? <==> key !in response || response[key] == Chat.JNull
    ensures value.Some? ==> response[key] == Chat.JString(value.value)
  {
    if key in response && response[key].JString? then Some(response[key].s) else None
  }

  /** With no TTS client the audio field is null, so the page shows the reply
      and hides the audio player. */
  lemma NoSpeechHidesPlayer(req: Chat.ChatRequest, localData: string,
                            complete: string -> string, status: int, body: string)
    requires Translation.StatusOk(status)
    ensures Chat.Chat(req, localData, complete, None).Some?
    ensures var response := Chat.Chat(req, localData, complete, None).value;
            var r := Translation.RenderOutcome(Translation.Response(status, body, Some(PayloadOf(response))));
            r.text == response["text"].s && r.audio == Translation.HideAudio && r.color.None?
  {
  }

  /** With a TTS client and a non-empty audio payload, the player is shown with
      that payload as its `data:` URI. */
  lemma SpeechReachesPlayer(req: Chat.ChatRequest, localData: string, complete: string -> string,
                            synthesize: (string, Chat.VoiceSelection) -> Option<string>,
                            status: int, body: string)
    requires Translation.StatusOk(status)
    requires Chat.Chat(req, localData, complete, Some(synthesize)).Some?
    requires Chat.Chat(req, localData, complete, Some(synthesize)).value["audio_base64"].s != ""
    ensures var response := Chat.Chat(req, localData, complete, Some(synthesize)).value;
            var r := Translation.RenderOutcome(Translation.Response(status, body, Some(PayloadOf(response))));
            r.text == response["text"].s
            && r.audio == Translation.ShowAudio(Translation.AudioUri(response["audio_base64"].s))
  {
  }

  /** When the speech synthesis raises, the endpoint produces no dictionary and
      answers with status 500; whatever that reply's body, the page shows the
      fixed apology in the error colour with the audio hidden. */
  lemma SynthesisFailureShowsApology(req: Chat.ChatRequest, localData: string, complete: string -> string,
                                     synthesize: (string, Chat.VoiceSelection) -> Option<string>,
                                     body: string, json: Option<Translation.Payload>)
    requires synthesize(complete(Chat.Prompt(Chat.LangName(req.lang), localData, req.text)), Chat.Voice(req.lang)).None?
    ensures Chat.Chat(req, localData, complete, Some(synthesize)).None?
    ensures Translation.RenderOutcome(Translation.Response(500, body, json))
            == Translation.Rendering(Translation.ErrorMessage, Some(Translation.ErrorColor), Translation.HideAudio)
  {
  }
}
