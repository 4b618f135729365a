/**
 * The `/chat` endpoint of backend/main.py: the request model's default, the
 * language and voice tables with their fallbacks, the prompt sent to the
 * language model, the TTS language code, and the response dictionary.
 *
 * The chat-completion call and the speech synthesis (with its base64
 * encoding) are inputs: `complete` maps a prompt to the reply text, and
 * `synthesize`, present only when a TTS client is configured, maps the reply
 * text and the voice to the base64 audio, or to `None` when the synthesis
 * call raises.
 */
module Chat {
  import opened Wrappers
  import JsString

  /** The JSON values the endpoint returns. */
  datatype Json = JNull | JString(s: string)

  /** `ChatRequest` after validation. */
  datatype ChatRequest = ChatRequest(text: string, lang: string)

  /** Validation of a request body whose fields are strings or absent: `text`
      is required, and a missing `lang` becomes "en". */
  function ParseChatRequest(text: Option<string>, lang: Option<string>): (req: Option<ChatRequest>)
    ensures req.Some? <==> text.Some?
    ensures req.Some? ==> req.value.text == text.value
    ensures req.Some? ==> req.value.lang == (if lang.Some? then lang.value else "en")
  {
    match text
    case None => None
    case Some(t) => Some(ChatRequest(t, lang.GetOr("en")))
  }

  /** `lang_prompts`: how each known language is named in the prompt. */
  const LangPrompts: map<string, string> :=
    map["ja" := "japonés formal (keigo)", "en" := "English", "es" := "español"]

  /** `lang_prompts.get(req.lang, "English")`. */
  function LangName(lang: string): (name: string)
    ensures lang == "ja" ==> name == "japonés formal (keigo)"
    ensures lang == "es" ==> name == "español"
    ensures lang != "ja" && lang != "es" ==> name == "English"
    ensures name in LangPrompts.Values
  {
    assert LangPrompts["en"] == "English";
    if lang in LangPrompts then LangPrompts[lang] else "English"
  }

  /** `voice_map`: the Google voice used for each known language. */
  const VoiceMap: map<string, string> :=
    map["ja" := "ja-JP-Neural2-B", "en" := "en-US-Neural2-F", "es" := "es-MX-Neural2-F"]

  /** `voice_map.get(req.lang, "en-US-Neural2-F")`. */
  function VoiceName(lang: string): (name: string)
    ensures lang == "ja" ==> name == "ja-JP-Neural2-B"
    ensures lang == "es" ==> name == "es-MX-Neural2-F"
    ensures lang != "ja" && lang != "es" ==> name == "en-US-Neural2-F"
    ensures name in VoiceMap.Values
  {
    assert VoiceMap["en"] == "en-US-Neural2-F";
    if lang in VoiceMap then VoiceMap[lang] else "en-US-Neural2-F"
  }

  /** `voice_name[:5]`: Python slicing, which stops early on a shorter string. */
  function LanguageCode(voiceName: string): (code: string)
    ensures |code| == if |voiceName| < 5 then |voiceName| else 5
    ensures code <= voiceName
  {
    if |voiceName| < 5 then voiceName else voiceName[..5]
  }

  /** The `VoiceSelectionParams` passed to the synthesiser. */
  datatype VoiceSelection = VoiceSelection(languageCode: string, name: string)

  /** The voice for a request language. Its language code, five characters
      cut from the voice name, is always the whole locale in front of
      "-Neural2-": Japanese for "ja", Mexican Spanish for "es", American
      English for every other code. */
  function Voice(lang: string): (v: VoiceSelection)
    ensures v.name == VoiceName(lang)
    ensures lang == "ja" ==> v.languageCode == "ja-JP"
    ensures lang == "es" ==> v.languageCode == "es-MX"
    ensures lang != "ja" && lang != "es" ==> v.languageCode == "en-US"
    ensures |v.name| > 0 && v.name == v.languageCode + "-Neural2-" + [v.name[|v.name| - 1]]
  {
    VoiceCases(lang);
    VoiceSelection(LanguageCode(VoiceName(lang)), VoiceName(lang))
  }

  /** `Voice`'s promises, checked one table entry at a time. */
  lemma VoiceCases(lang: string)
    ensures var name := VoiceName(lang);
            var code := LanguageCode(name);
            (lang == "ja" ==> code == "ja-JP")
            && (lang == "es" ==> code == "es-MX")
            && (lang != "ja" && lang != "es" ==> code == "en-US")
            && |name| > 0 && name == code + "-Neural2-" + [name[|name| - 1]]
  {
    if lang == "ja" {
      VoiceParts("ja-JP", "B");
    } else if lang == "es" {
      VoiceParts("es-MX", "F");
    } else {
      VoiceParts("en-US", "F");
    }
  }

  /** A voice name made of a five-character locale, "-Neural2-" and a one-letter
      variant yields that locale as its language code. */
  lemma VoiceParts(locale: string, variant: string)
    requires |locale| == 5 && |variant| == 1
    ensures var name := locale + "-Neural2-" + variant;
            LanguageCode(name) == locale && name == locale + "-Neural2-" + [name[|name| - 1]]
  {
  }

  const PromptHead: string := "\n    You are a tourism assistant in Monterrey, Mexico, for the FIFA World Cup 2026.\n    "
  const LanguageInstruction: string := "Respond ONLY in "
  const DataLabel: string := "\n    Be helpful, polite, and clear.\n    Use the following local data: "
  const QuestionLabel: string := "\n    User question: "
  const PromptTail: string := "\n    "

  /** The prompt built by the f-string: it instructs the model to answer only in
      the language's name, and carries the local data and the user's question. */
  function Prompt(langName: string, localData: string, question: string): (p: string)
    ensures JsString.Contains(p, LanguageInstruction + langName + ".")
    ensures JsString.Contains(p, QuestionLabel + question)
    ensures JsString.Contains(p, localData)
  {
    var instruction := LanguageInstruction + langName + ".";
    var question' := QuestionLabel + question;
    var p := PromptHead + instruction + DataLabel + localData + question' + PromptTail;
    assert p == PromptHead + instruction + (DataLabel + localData + question' + PromptTail);
    JsString.ContainsMiddle(PromptHead, instruction, DataLabel + localData + question' + PromptTail);
    assert p == (PromptHead + instruction + DataLabel + localData) + question' + PromptTail;
    JsString.ContainsMiddle(PromptHead + instruction + DataLabel + localData, question', PromptTail);
    assert p == (PromptHead + instruction + DataLabel) + localData + (question' + PromptTail);
    JsString.ContainsMiddle(PromptHead + instruction + DataLabel, localData, question' + PromptTail);
    p
  }

  /** The `chat` handler for a validated request. `None` stands for a handler
      that raised because the speech synthesis failed, which FastAPI answers
      with status 500. Otherwise the response has exactly the keys "text" and
      "audio_base64"; the text is the model's reply to the prompt naming the
      request's language; the audio is null unless a TTS client is configured,
      and then it is the reply spoken in the request's voice. */
  function Chat(req: ChatRequest, localData: string, complete: string -> string,
                synthesize: Option<(string, VoiceSelection) -> Option<string>>): (response: Option<map<string, Json>>)
    ensures var text := complete(Prompt(LangName(req.lang), localData, req.text));
            response.None? <==> synthesize.Some? && synthesize.value(text, Voice(req.lang)).None?
    ensures response.Some? ==>
              response.value.Keys == {"text", "audio_base64"}
              && response.value["text"] == JString(complete(Prompt(LangName(req.lang), localData, req.text)))
    ensures response.Some? ==> (synthesize.None? <==> response.value["audio_base64"] == JNull)
    ensures response.Some? && synthesize.Some? ==>
              response.value["audio_base64"]
              == JString(synthesize.value(response.value["text"].s, Voice(req.lang)).value)
  {
    var text := complete(Prompt(LangName(req.lang), localData, req.text));
    match synthesize
    case None => Some(map["text" := JString(text), "audio_base64" := JNull])
    case Some(speak) =>
      match speak(text, Voice(req.lang))
      case None => None
      case Some(audio) => Some(map["text" := JString(text), "audio_base64" := JString(audio)])
  }
}
