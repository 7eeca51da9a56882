# Welfare Voice Buddy: a verified model of its core

Welfare Voice Buddy is a voice assistant that answers questions about
Indian government welfare schemes, in English or Hindi. This project models
and proves properties of three parts of it:

- **The `/api/voice` route** (`route.dfy`, module `VoiceRoute`). It checks
  that the API key is configured, then applies three input guards in a
  fixed order: a usable query, a supported language, and a length limit of
  500 UTF-16 code units measured before trimming. It builds the user
  message (the trimmed query, plus an instruction to answer in Hindi for
  Hindi). It maps the chat-completion outcome to a status in
  {200, 400, 408, 422, 500, 503}. The upstream call is an input. `Post`
  reports whether the call would have been made and with which request.
- **The history page** (`history.dfy`, module `History`). The class
  `HistoryPage` holds the entry list, the stored `voice-history` slot and
  the loading and error flags. Its methods are the load effect, "clear
  all" and "delete one". The filter that keeps only well-formed entries is
  a function with its own lemmas.
- **The voice-buddy page** (`voice_buddy.dfy`, module `VoiceBuddy`). The
  class `VoiceSession` holds the page state, its two refs, the
  speech-recognition hook's transcript and capture flag, the request in
  flight, and the speech engine's queue. There is one method per handler:
  speak, stop speaking, start, stop and toggle listening, process, the mic
  button, the language toggle, the 30-second recognition timeout and the
  cleanup of the effect keyed on `listening`. Each
  method's new state equals a pure transition function of the old state.
  Every error the modelled handlers set is one of seven fixed notices, in
  the language their handler's closure captured (the failures of the
  recognition library's start and stop calls are left out). So the model
  stores the error as the notice and its language, and `Message` gives the
  text the banner shows.
  The invariant `Valid()` relates `loading` to the request in flight, and
  the current utterance to the engine queue.

Supporting modules:

- `Text` holds JavaScript `trim` over the full ECMAScript whitespace set,
  the UTF-16 length and substring search (`includes`).
- `Locale` holds the two language codes and the BCP 47 tags `en-US` and
  `hi-IN`.
- `Json` holds the three kinds of field value the code distinguishes:
  missing, string, anything else.
- `Wrappers` holds `Option` and `Result`.

Where the code and the intended design of the application differ, the model
follows the code:

- The history page keeps the well-formed entries of a stored array and drops
  only the malformed ones. It discards the whole slot only when it does not
  hold an array or fails to parse.
- No code in these files appends an entry or caps the history length.
- The voice page has no single state enum. It has independent flags
  (`listening`, `loading`, `isSpeaking`), and `startListening` has no guard
  of its own against being called while busy. The mic button is what is
  disabled while loading or speaking.
- A missing `language` field defaults to `"en"`. An explicit `null` does
  not, and is refused.

## Model

| member | source | states |
|---|---|---|
| VoiceRoute.Post | src/app/api/voice/route.ts:23-139 | A missing or empty key gives 500 with no upstream call. An unparseable body gives 500 with no call. A call is made iff the key is set, the body parses and the guards pass. The call carries the fixed model, the language and `UserContent`, and the response is the mapped upstream outcome. A refusal by the guards is the 422 that `Validate` gives, with its message. Every status is one of 200, 400, 408, 422, 500, 503. |
| VoiceRoute.Validate | src/app/api/voice/route.ts:34-55 | Accepts iff the query is a string with non-whitespace content, the language (missing defaults to English) is `en` or `hi`, and the raw query has at most 500 UTF-16 units. Every refusal is a 422. Each message is returned exactly when its guard is the first to fail. |
| VoiceRoute.RequestedLanguage | src/app/api/voice/route.ts:34-46 | The language the body names, with a missing field defaulting to English. `Validate` states that a request passes the language guard exactly when this gives a language. |
| VoiceRoute.UserContent | src/app/api/voice/route.ts:65-68 | The message starts with the trimmed query. For English it is exactly that. For Hindi the rest is the fixed instruction to answer in Hindi. |
| VoiceRoute.UserContentUnpadded | src/app/api/voice/route.ts:65-68 | For a usable query the user message is non-empty with no whitespace at either end. |
| VoiceRoute.MapUpstream | src/app/api/voice/route.ts:98-137 | A non-2xx status gives 503 if it is at least 500, else 400. A reply is returned iff the 2xx content is a string with non-whitespace content, and it is that content trimmed, tagged with the language and model. Missing or blank content gives 500 "empty response". An abort gives 408. Any other failure gives 500. |
| VoiceRoute.NoCallNoInfluence | src/app/api/voice/route.ts:24-55 | When no upstream call is made, the response does not depend on the upstream outcome. |
| VoiceRoute.QueryGuardComesFirst | src/app/api/voice/route.ts:36-41 | A blank or non-string query is refused with the query message whatever the language and length. |
| VoiceRoute.LanguageGuardComesBeforeLength | src/app/api/voice/route.ts:43-55 | With a usable query, an unsupported language is refused with the language message even when the query is also too long. |
| VoiceRoute.UsableQueryDecidedByLength | src/app/api/voice/route.ts:43-55 | With a usable query and a supported language code, only the length decides between acceptance and the 422 length refusal. |
| VoiceRoute.ExactlyMaxAccepted | src/app/api/voice/route.ts:50-55 | A query of exactly 500 characters is accepted and forwarded unchanged. |
| VoiceRoute.LengthMeasuredBeforeTrim | src/app/api/voice/route.ts:50-55 | A padded query whose trimmed text is under 500 characters but whose raw length is 501 is refused. |
| Text.Trim | src/app/api/voice/route.ts:36 | JavaScript `trim` as the composition of its two halves. Its contract is stated by `TrimIsSlice`, `TrimUnpadded`, `TrimEmptyIff`, `TrimIdempotent` and `TrimOfUnpadded` below. |
| Text.TrimStartDrops | src/app/api/voice/route.ts:36 | Removing leading whitespace keeps a suffix of the input. Everything removed is whitespace. The result is empty or starts with non-whitespace. |
| Text.TrimEndDrops | src/app/api/voice/route.ts:36 | Removing trailing whitespace keeps a prefix of the input. Everything removed is whitespace. The result is empty or ends with non-whitespace. |
| Text.TrimUnpadded | src/app/api/voice/route.ts:36 | What `trim` returns has no whitespace at either end and is no longer than its input. |
| Text.TrimIsSlice | src/app/api/voice/route.ts:36 | `trim` returns a contiguous slice of its input with only whitespace outside it. |
| Text.TrimEmptyIff | src/app/api/voice/route.ts:36 | `trim` gives the empty string iff the input is all whitespace. |
| Text.TrimIdempotent | src/app/voice-buddy/page.tsx:150 | Trimming twice equals trimming once. |
| Text.TrimOfUnpadded | src/app/api/voice/route.ts:65-68 | `trim` leaves a string with no whitespace at either end unchanged. |
| Text.Utf16Length | src/app/api/voice/route.ts:50 | `.length` counts between one and two code units per character. |
| Text.Utf16LengthOfBmp | src/app/api/voice/route.ts:50 | For text of Basic Multilingual Plane characters, `.length` is the character count. |
| Text.Contains | src/app/voice-buddy/page.tsx:103-107 | JavaScript `includes` on strings. `ContainsIff` states what it decides, `ContainsPrefix` how it behaves under prefixes. |
| Text.ContainsIff | src/app/voice-buddy/page.tsx:103-107 | `includes` holds iff the pattern occurs at some position. |
| Text.ContainsPrefix | src/app/voice-buddy/page.tsx:105-106 | A string containing a pattern contains every prefix of that pattern. |
| Locale.FromCode | src/app/api/voice/route.ts:43 | Only `en` and `hi` are languages, and each maps back to its own code. |
| Locale.Tag | src/app/voice-buddy/page.tsx:96 | The speech tag is five characters: the language code, a hyphen, then the region. |
| Locale.Toggle | src/app/voice-buddy/page.tsx:413-415 | The toggle always changes the language. |
| History.ValidEntries | src/app/history/page.tsx:24-33 | The kept entries are exactly the stored items that are records with string `command`, `response` and `time`. The result is no longer than the input and all of it is well formed. |
| History.ValidEntriesAppend | src/app/history/page.tsx:25-32 | Filtering distributes over concatenation, so the filter keeps the stored order. |
| History.ValidEntriesFixedPoint | src/app/history/page.tsx:25-32 | Filtering an already well-formed list leaves it unchanged. |
| History.WithoutIndex | src/app/history/page.tsx:57 | The index filter of the delete handler. `WithoutIndexFromRemoves` and `DeleteKeepsOthers` state that it cuts out exactly the entry at the index, if there is one. |
| History.WithoutIndexFromRemoves | src/app/history/page.tsx:57 | The filter, walked from running index `k`, cuts out exactly the entry at `index` when that index falls in the list, and otherwise returns the list unchanged. |
| History.DeleteKeepsOthers | src/app/history/page.tsx:56-57 | Deleting a position in range gives the list with that one entry cut out. |
| History.HistoryPage.constructor | src/app/history/page.tsx:13-15 | The page starts empty, loading and without error, over the given storage slot. |
| History.HistoryPage.Load | src/app/history/page.tsx:17-47 | An absent slot leaves the list as it was (empty from the constructor). A stored array yields its well-formed entries. A non-array is removed from storage. Unparseable data sets the load error and is removed. Loading ends in every case. |
| History.HistoryPage.ClearHistory | src/app/history/page.tsx:49-54 | If confirmed, the list is emptied and the slot removed. Otherwise nothing changes. |
| History.HistoryPage.DeleteEntry | src/app/history/page.tsx:56-60 | The list loses the entry at that index (none if out of range), and the slot stores the new list. |
| History.ReloadAfterDelete | src/app/history/page.tsx:17-60 | After a delete, reloading the stored slot gives back exactly the list on screen. |
| VoiceBuddy.Message | src/app/voice-buddy/page.tsx:77-272 | The English and Hindi banner text of each notice. Which notice each handler sets, and in which language, is stated by the handler rows below. |
| VoiceBuddy.PrefersVoiceByCode | src/app/voice-buddy/page.tsx:103-107 | The voice test as written, full tag or bare code, holds iff the voice's `lang` contains the language code. |
| VoiceBuddy.PreferredVoice | src/app/voice-buddy/page.tsx:102-111 | `voices.find` with the page's voice test. `PreferredVoiceNone` and `PreferredVoiceIsFirst` state when it chooses nothing and which voice it chooses. |
| VoiceBuddy.PreferredVoiceNone | src/app/voice-buddy/page.tsx:102-111 | No voice is chosen iff no voice's `lang` contains the language code. |
| VoiceBuddy.PreferredVoiceIsFirst | src/app/voice-buddy/page.tsx:102-111 | A chosen voice is the first voice on offer whose `lang` contains the language code. |
| VoiceBuddy.Issued | src/app/voice-buddy/page.tsx:150-158 | A request is posted iff the transcript has non-whitespace content. Its query is the trimmed transcript, non-empty and unpadded. |
| VoiceBuddy.VoiceSession.constructor | src/app/voice-buddy/page.tsx:21-55 | The page starts idle in English, with nothing heard, said, queued or pending. |
| VoiceBuddy.VoiceSession.Speak | src/app/voice-buddy/page.tsx:77-147 | Without synthesis, only the error is set. Otherwise any queued utterance is cancelled and the new one becomes current, with the text, the tag for the language and the first preferred voice. It is queued unless `speak` throws, in which case the error is set and speaking is off. |
| VoiceBuddy.VoiceSession.UtteranceStarted | src/app/voice-buddy/page.tsx:113-116 | Speaking turns on and the error clears. Nothing else changes. |
| VoiceBuddy.VoiceSession.UtteranceFinished | src/app/voice-buddy/page.tsx:118-132 | Speaking turns off and the current utterance clears. Nothing else changes. |
| VoiceBuddy.VoiceSession.StopSpeaking | src/app/voice-buddy/page.tsx:292-298 | Only while speaking with synthesis: the engine is cancelled, speaking turns off and the current utterance clears. Otherwise nothing changes. |
| VoiceBuddy.VoiceSession.TranscriptChanged | src/app/voice-buddy/page.tsx:50-55 | The recognizer's transcript is replaced. Nothing else changes. |
| VoiceBuddy.VoiceSession.RecognitionEnded | src/app/voice-buddy/page.tsx:319-324 | The capture flag turns off (the recognizer stops, for example when the page is hidden). Nothing else changes. |
| VoiceBuddy.VoiceSession.ListeningEffectCleanup | src/app/voice-buddy/page.tsx:300-316 | The cleanup React runs whenever `listening` changes: with synthesis the engine is cancelled, and any armed timeout is cleared. Nothing else changes. |
| VoiceBuddy.VoiceSession.StartListening | src/app/voice-buddy/page.tsx:207-256 | Without recognition, only the error is set. Otherwise the error, transcript and response clear, the capture starts and a 30-second timer is armed. The timer captures the current flag, transcript and language. |
| VoiceBuddy.VoiceSession.HandleProcess | src/app/voice-buddy/page.tsx:149-178 | A blank transcript sets the "no speech" error and posts nothing. Otherwise the trimmed transcript is posted in the captured language, loading turns on, the error clears and the timer is cancelled. |
| VoiceBuddy.VoiceSession.ReceiveReply | src/app/voice-buddy/page.tsx:179-205 | Loading ends. The reply, or the localized failure message, is shown and spoken when synthesis exists. A failure also becomes the error. |
| VoiceBuddy.VoiceSession.StopListening | src/app/voice-buddy/page.tsx:258-282 | The capture stops and the timer clears. The transcript is processed when it has content. Otherwise the "no speech" error is set. |
| VoiceBuddy.VoiceSession.ToggleListening | src/app/voice-buddy/page.tsx:284-290 | Stops and processes a running capture, otherwise starts one. |
| VoiceBuddy.VoiceSession.PressMicButton | src/app/voice-buddy/page.tsx:461-463 | While loading or speaking the button does nothing. Otherwise it toggles listening. A request it posts is the one pending and loading is on. |
| VoiceBuddy.VoiceSession.ToggleLanguage | src/app/voice-buddy/page.tsx:331-337 | The language flips. If an utterance was playing, it is cancelled and the shown response is spoken again in the new language. |
| VoiceBuddy.VoiceSession.RecognitionTimeoutFires | src/app/voice-buddy/page.tsx:227-240 | As written: the callback tests the capture flag, transcript and language it captured when armed. If that flag was on, the capture stops and the captured transcript is processed in the captured language, or the time-limit error is set when it is blank (`AfterTimeout`). If it was off, the timer is spent and nothing else changes. |
| VoiceBuddy.VoiceSession.RecognitionTimeoutFiresLive | src/app/voice-buddy/page.tsx:227-240 | Corrected: while capturing, the new state is `AfterTimeout` over the live flag, transcript and language. The capture stops and the live transcript is posted, with loading on and the request pending, or the time-limit error is set when it is blank. When not capturing, the timer is spent and nothing else changes. |
| VoiceBuddy.TimeoutAfterToggle | src/app/voice-buddy/page.tsx:227-290 | Start via the mic toggle, hear "hello", let the timer fire: even if the timer survived, the callback as written lets capture go on and posts nothing. |
| VoiceBuddy.TimeoutClearedOnStart | src/app/voice-buddy/page.tsx:227-316 | Start via the mic toggle: the `listening` effect cleanup clears the timer just armed, so capture goes on with no timeout left to end it. |
| VoiceBuddy.TimeoutAfterToggleLive | src/app/voice-buddy/page.tsx:227-290 | The same sequence with the corrected callback, and with the effect cleaned up only on unmount, stops the capture and posts "hello" in English. |
| VoiceBuddy.IssuedRequestAccepted | src/app/voice-buddy/page.tsx:169-178 | A request the page posts always passes the route's query and language guards. The route forwards it iff it fits 500 units, and then sends exactly the posted text as the user message (with the Hindi instruction for Hindi). |

## Left out

- Network I/O: the route's `fetch`, its `AbortController` and 25-second timer, and the page's `fetch` are outcomes passed in (`Upstream`, `FetchOutcome`). The model does not measure time.
- The system prompts, `max_tokens`, `temperature` and `top_p` sent upstream are not modelled. They do not affect any branch. `ChatRequest` records the language that selects the prompt.
- Console logging, and the upstream error body read on a non-2xx status, are left out. Neither affects the response.
- JSON parsing and serialisation are abstracted. A stored value is absent, unparseable, a non-array or an array of items. An empty stored string behaves as absent (`if (stored)`) and is folded into `Absent`.
- VoiceBuddy.VoiceSession.ReceiveReply: a 2xx reply whose body has no string `response` field is not modelled, because `Replied` always carries a string. In the page, `setResponse(undefined)` makes the response area fall back to its placeholder, and `speak(undefined)` still cancels the playing utterance and queues one without reply text.
- The speech engine is reduced to its queue. When `onstart`, `onend` and `onerror` fire is left to the caller's event methods. A late `onend` of a cancelled utterance, which in the page clears the ref of a newer one, is not modelled.
- The `catch` branches around `SpeechRecognition.startListening` and `stopListening` are not modelled. Those library calls are not part of this model and their failures are not inputs.
- The speech-recognition hook flips `listening` asynchronously. The model sets it when capture is started or stopped.
- Interleavings while a request is in flight are not modelled. The handlers that post a request require `!loading`, which the disabled mic button guarantees in the page. `ReceiveReply` completes the request.
- The wave animation (and the cleanup's `clearInterval` of it), `formatTime`, the theme, the markup and the unsupported-browser screen are not modelled. They change no state the handlers read.
- The cleanup of the effect keyed on `listening` runs on every change of `listening` and on unmount. When it runs is left to the caller, who calls `ListeningEffectCleanup` after each handler that changed `listening`. Unmount itself is not modelled.
- VoiceBuddy.TimeoutAfterToggle: fires the timer with no `ListeningEffectCleanup` before it, which in the page has already cleared that timer. It isolates the second defect, the captured flag. `RecognitionTimeoutFires` and `RecognitionTimeoutFiresLive` likewise model a timer that the page as written never lets fire.
- The utterance's `rate`, `pitch` and `volume` constants are not modelled. They affect no branch.
- The `@/lib/uiText` module, the header and footer components, and the other pages are not part of this model.
- `window.confirm` is the parameter `confirmed`. `speechSynthesis.getVoices()` is the parameter `voices`. An exception from `speechSynthesis.speak` is the parameter `speakThrows`.

## Findings

| source | as written | input that shows it | evidently intended | confidence | as-written member | corrected member |
|---|---|---|---|---|---|---|
| src/app/voice-buddy/page.tsx:227-240 | The 30-second callback tests the `listening` and `transcript` values captured when `startListening` was created. `toggleListening` only calls `startListening` while `listening` is false, so the captured flag is always false and the callback never acts. Besides, the cleanup of the effect keyed on `listening` clears the timer as soon as capture starts, so the callback is not even called. | Press the mic, say "hello" and stay silent for 30 s. Capture keeps running and nothing is sent. | After 30 s of capture, stop it and process what was heard, or report that nothing was heard. The flag and transcript are read when the timer fires, and the `listening` effect does not clear an armed timer (its cleanup runs on unmount only, as its comment says). | high; not executed | VoiceBuddy.VoiceSession.RecognitionTimeoutFires | VoiceBuddy.VoiceSession.RecognitionTimeoutFiresLive |
| src/app/voice-buddy/page.tsx:300-316 | The effect commented as the unmount cleanup lists `listening` among its dependencies. So its cleanup runs on every change of `listening`, and clears the recognition timer that `startListening` has just armed. | Press the mic and stay silent: no timeout is left to end the capture. | The cleanup runs on unmount only, so the 30-second timer stays armed while capturing. | high; not executed | VoiceBuddy.TimeoutClearedOnStart | VoiceBuddy.TimeoutAfterToggleLive |
