# Japan Assist: translation page and chat endpoint, modelled in Dafny

Japan Assist is a browser page that sends the user's text and a target
language to a `/chat` endpoint. The endpoint asks a language model for an
answer and, when a speech client is configured, has the answer spoken. The
page then shows the reply and plays the audio. The page also offers copy,
speak and share buttons and a light/dark theme toggle.

This project models the deterministic logic of both sides:

- `frontend/script.js`:
  - the direction → language table;
  - the translation handler, as a state machine over the page's controls. The
    network exchange is an input: the outcome `fetch` and the body parsers
    produced.
  - the guard shared by the copy, speak and share actions, the speech locale
    and the share message;
  - the theme toggle and the saved-theme load, as a class over the document
    attribute and local storage.
- `backend/main.py`:
  - the request default;
  - the language-name and voice tables with their fallbacks;
  - the five-character TTS language code;
  - the prompt;
  - the response dictionary.

  The language model and the speech synthesiser are function parameters.

Files:

| file | module | contents |
|---|---|---|
| `wrappers.dfy` | `Wrappers` | `Option`, for JavaScript `null`/`undefined` and Python `None` |
| `js_string.dfy` | `JsString` | `String.prototype.trim` and `String.prototype.includes` |
| `frontend_translation.dfy` | `Translation` | the language table, the request, the rendering of outcomes, the `Page` class |
| `frontend_actions.dfy` | `Actions` | copy, speak and share |
| `frontend_theme.dfy` | `Theme` | the `Document` class with the toggle and the saved-theme load |
| `backend_chat.dfy` | `Chat` | the `/chat` endpoint |
| `end_to_end.dfy` | `EndToEnd` | properties that connect the page and the endpoint |

`handleTranslation` is split at `await fetch(...)`. The later
`response.text()` and `response.json()` awaits are folded into the
`FetchOutcome` input.

- `Page.Submit` runs the part before `fetch`. It either shows the validation
  message and sends nothing, or enters the loading state and returns the
  request body.
- `Page.Complete` runs the part after `fetch`. It renders the outcome and
  leaves the loading state.

`Page.HandleTranslation` composes the two.

Two behaviours of the theme toggle are easy to miss:

- Toggling twice does not always restore the stored value. With nothing
  stored and the light theme, `'light'` ends up stored. `Theme.ToggleTwice`
  states the exact outcome.
- Any `data-theme` value other than `'dark'` counts as light. Two toggles
  therefore restore the attribute only when it was absent or `'dark'`; any
  other value ends up removed.

## Model

| member | source | states |
|---|---|---|
| `JsString.IsWhitespace` | frontend/script.js:27 | the characters `trim` removes: the ECMAScript WhiteSpace and LineTerminator code points (tab to carriage return, space, no-break space, the Unicode space separators, the line and paragraph separators, and the byte order mark) |
| `JsString.Trim` | frontend/script.js:27 | the trimmed input is a contiguous slice of the input with only whitespace removed on either side, neither end is whitespace, and it is empty exactly when the input is all whitespace |
| `JsString.Contains` | frontend/script.js:92 | `includes` is true exactly when the pattern occurs at some index of the text |
| `Translation.LangFromDirection` | frontend/script.js:15-23 | the three Japanese directions give "ja", "ja-es" gives "es", every other direction gives "en" (each as an if-and-only-if), so the result is one of the three |
| `Translation.Request` | frontend/script.js:26-53 | no request for all-whitespace input; otherwise the body carries the non-empty trimmed text, which neither starts nor ends with whitespace, and the direction's language `LangFromDirection(direction)`, one of "ja", "es", "en" |
| `Translation.StatusOk` | frontend/script.js:59 | `response.ok`: the status lies in 200-299 |
| `Translation.Received` | frontend/script.js:59-64 | parsed data reaches rendering exactly when the status is 200-299 and the body parses; every other outcome goes to the catch block |
| `Translation.TextContent` | frontend/script.js:67 | assigning a missing or null `text` displays the empty string, and a present one displays itself |
| `Translation.Truthy` | frontend/script.js:70 | the `if (data.audio_base64)` test: the field is present and not the empty string |
| `Translation.AudioUri` | frontend/script.js:71 | the audio source is the `data:audio/mpeg;base64,` prefix followed by exactly the payload |
| `Translation.RenderOutcome` | frontend/script.js:59-83 | every failure (network error, non-OK status whatever its body, unparsable body) shows the fixed apology in `#ef4444` with the audio hidden; a success shows `data.text`, leaves the colour alone, and shows the audio with the payload's URI exactly when `audio_base64` is truthy |
| `Translation.Page.constructor` | frontend/script.js:2-10 | the controls the handler reads and writes, with their starting values |
| `Translation.Page.OnContentLoaded` | frontend/script.js:172-175 | the sample sentence is placed in the input and the audio player hidden, nothing else changes |
| `Translation.Page.Submit` | frontend/script.js:26-54 | blank input: validation message, error colour, audio hidden, loading indicator and send button untouched, nothing sent; otherwise colour reset, loading shown, send disabled, output cleared, and the request sent is `Request(input, direction)` |
| `Translation.Page.Complete` | frontend/script.js:55-87 | the page displays `RenderOutcome(outcome)` (audio source kept when hidden), play is attempted exactly when the audio is shown, and loading is hidden and send enabled on every outcome |
| `Translation.Page.HandleTranslation` | frontend/script.js:26-87 | the validation short-circuit as in `Submit`; for any sent request, the final page shows the outcome's rendering and has left the loading state whatever the outcome |
| `Actions.Actionable` | frontend/script.js:90-92 | an action proceeds exactly when the displayed text is non-empty and "Por favor, escribe" occurs nowhere in it |
| `Actions.ValidationMessageIgnored` | frontend/script.js:31-32 | the validation message itself fails the guard, so copy, speak and share never act on it |
| `Actions.CopyEffect` | frontend/script.js:90-108 | the clipboard receives the displayed text exactly when the guard passes and the clipboard API exists, and nothing otherwise |
| `Actions.SpeechLocale` | frontend/script.js:117-118 | the locale is "ja-JP" exactly for "ja" and "es-ES" for every other language, English included |
| `Actions.SpeakEffect` | frontend/script.js:111-124 | silent exactly when the guard fails; an alert with the fixed message exactly when the guard passes without speech synthesis; otherwise the displayed text at rate 0.9, in "ja-JP" exactly when the direction's language is "ja" |
| `Actions.ShareText` | frontend/script.js:131 | the share message is "Traducción: ", then the displayed text, then the fixed signature line |
| `Actions.SharedTranslation` | frontend/script.js:131 | any message it accepts is the share message of the text it returns |
| `Actions.ShareTextRoundTrip` | frontend/script.js:131 | the displayed text is recovered unchanged from its share message |
| `Actions.ShareEffect` | frontend/script.js:127-134 | a LINE URL is opened exactly when the guard passes, and it is the LINE message prefix followed by the encoded share message |
| `Theme.Document.constructor` | frontend/script.js:165 | a document before the saved theme is applied: no theme attribute, the given storage |
| `Theme.Document.LoadSaved` | frontend/script.js:164-169 | only a stored "dark" applies the dark theme and the sun icon; any other stored value, or none, changes nothing; storage is not written |
| `Theme.Document.Toggle` | frontend/script.js:150-162 | dark becomes light with the moon icon, anything else becomes dark with the sun icon, storage gains "light" or "dark" under "theme" accordingly, and afterwards the stored value names the displayed theme |
| `Theme.ToggleTwice` | frontend/script.js:150-162 | two toggles restore darkness and icon, restore the attribute exactly when it was absent or "dark" (any other value is removed), and leave the stored value naming the original theme, which is the original stored value exactly when the two agreed |
| `Theme.ToggleThenReload` | frontend/script.js:150-169 | after a toggle, a reloaded page reading the same storage comes up in the same theme |
| `Chat.ParseChatRequest` | backend/main.py:54-56 | a request without `text` is rejected; `text` is kept as given and a missing `lang` becomes "en" |
| `Chat.LangName` | backend/main.py:60-65 | "ja" is named "japonés formal (keigo)", "es" "español", and every other code, "en" included, "English"; the name is always a table entry |
| `Chat.VoiceName` | backend/main.py:83-88 | "ja" gets "ja-JP-Neural2-B", "es" "es-MX-Neural2-F", every other code "en-US-Neural2-F"; the voice is always a table entry |
| `Chat.LanguageCode` | backend/main.py:92 | Python's `[:5]`: the first five characters, or the whole name when it is shorter |
| `Chat.Voice` | backend/main.py:83-94 | the TTS language code is always the full locale in front of "-Neural2-" in the voice name: "ja-JP" for "ja", "es-MX" for "es", "en-US" for every other code |
| `Chat.Prompt` | backend/main.py:67-73 | the prompt contains "Respond ONLY in " followed by the language name and a full stop, the user's question after its label, and the local data |
| `Chat.Chat` | backend/main.py:58-99 | the handler fails (status 500) exactly when a TTS client is configured and its synthesis raises; otherwise the response has exactly the keys "text" and "audio_base64", the text is the model's reply to the prompt for the request's language, and the audio is null exactly when no TTS client is configured and otherwise the reply spoken with the request's voice |
| `EndToEnd.SentLanguagesAreKnown` | backend/main.py:60-88 | every language the page can send is a key of both `lang_prompts` and `voice_map`, so neither fallback fires for the page's requests |
| `EndToEnd.RequestReachesBackend` | backend/main.py:54-94 | the endpoint reads back exactly the page's request, and the voice follows the direction: Japanese for the Japanese directions, Mexican Spanish for "ja-es", American English otherwise |
| `EndToEnd.PayloadOf` | frontend/script.js:64-70 | a string field of the response dictionary reaches the page as present, a null or missing one as absent |
| `EndToEnd.Field` | frontend/script.js:67-70 | reading `data.text` or `data.audio_base64` from the parsed dictionary: absent exactly when the key is missing or null, and otherwise the dictionary's string |
| `EndToEnd.NoSpeechHidesPlayer` | backend/main.py:81-99 | without a TTS client the page shows the reply and hides the audio player |
| `EndToEnd.SpeechReachesPlayer` | frontend/script.js:70-73 | with a TTS client and non-empty audio, the page shows the reply and shows the player with the audio's `data:` URI |
| `EndToEnd.SynthesisFailureShowsApology` | backend/main.py:96 | a raising synthesis call makes the endpoint fail, and the page then shows the fixed apology in the error colour with the player hidden, whatever the failure reply's body |

## Left out

- `Translation.LangFromDirection`: JavaScript object lookup also finds names
  inherited from `Object.prototype`. For example, `map['toString']` is a
  function and is truthy, so `getLangFromDirection('toString')` does not
  return `'en'`. The model uses the table's own keys only. The direction
  comes from a selector with four fixed options, so such names do not occur.
- `fetch` is not modelled: the HTTP transport, the endpoint URL, the headers,
  `JSON.stringify` of the body and the body parsers. It is replaced by the
  `FetchOutcome` input.
  - A parsed body is modelled as an object whose `text` and `audio_base64`
    are strings or absent/null.
  - Other JSON shapes are left out: numbers, objects, a top-level `null`, or a
    non-object body.
- `console.log`, `console.warn` and `console.error` diagnostics are left out,
  and so is the error object the catch block logs. They do not affect what
  the page shows.
- The promise from `audioPlayer.play()` is not awaited and its rejection is
  only logged. The model records only that playback was attempted.
- Ctrl+Enter can submit again while a request is pending. Two handlers could
  then interleave across the `await`. Concurrency is not modelled.
- The clipboard write is asynchronous. The check-mark icon and its
  `setTimeout` restore after copying are host UI effects and are left out.
- Encoding and host APIs are not modelled:
  - `encodeURIComponent` is a function parameter;
  - `window.open`, `alert` and `speechSynthesis.speak` are returned as
    effects rather than performed.
- The toggle button's `innerHTML` is modelled as a moon or sun icon, not as
  markup.
- JavaScript strings are UTF-16 code units, and Dafny characters are Unicode
  scalar values. `trim` and `includes` agree for these inputs, because every
  whitespace character and the placeholder lie in the Basic Multilingual
  Plane.
- Backend configuration and I/O are left out: environment variables, the
  credential loading, the CORS middleware, the `/` route, reading
  `recommendations.json` and `print` diagnostics. The serialised local data
  (`json.dumps(recommendations, ensure_ascii=False)`) is the `localData`
  parameter.
- The OpenAI chat completion is the `complete` parameter. Its errors, and a
  reply whose `content` is `None`, are not modelled.
- Google speech synthesis and `base64.b64encode(...).decode()` are together
  the `synthesize` parameter, which returns `None` for a call that raises.
  The model does not distinguish the kinds of synthesis error. It also does
  not model the body of the 500 reply or the audio encoding setting (MP3).
- `Chat.ParseChatRequest` models a request body whose fields are strings or
  absent. Pydantic's treatment of non-string or null values depends on its
  version and is left out.
