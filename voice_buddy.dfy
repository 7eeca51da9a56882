/**
 * The voice assistant page: the handlers that start and stop speech
 * capture, send the transcript to `/api/voice`, show and speak the reply,
 * and switch the language. What the browser decides (whether recognition
 * and synthesis exist, the voices on offer, the outcome of the request,
 * whether `speechSynthesis.speak` throws, when an utterance starts or ends)
 * arrives as parameters or as event methods. The speech engine's queue is
 * the field `synthQueue`.
 */
module VoiceBuddy {
  import opened Wrappers
  import opened Text
  import opened Locale
  import Json
  import VoiceRoute

  datatype Voice = Voice(name: string, lang: string)

  /** A `SpeechSynthesisUtterance`: its text, its `lang` tag and the voice chosen for it, if any. */
  datatype Utterance = Utterance(text: string, lang: string, voice: Option<Voice>)

  /** The body posted to `/api/voice`. */
  datatype VoiceRequest = VoiceRequest(query: string, language: Lang)

  /** What the page's `fetch` yields: the `response` field of a 2xx reply, or a failure of any kind. */
  datatype FetchOutcome = Replied(response: string) | RequestFailed

  /** The values the 30-second timeout callback captured when `startListening` armed it. */
  datatype TimerClosure = TimerClosure(listening: bool, transcript: string, language: Lang)

  /** The messages the page shows or speaks. */
  datatype Notice =
    | SynthesisUnsupported | SpeakFailed | NoSpeechRetry | ProcessFailed
    | RecognitionUnsupported | NoSpeechInTime | NoSpeech

  /** An error the page reports, with the language it is reported in; the banner shows `Message(notice, language)`. */
  datatype Alert = Alert(notice: Notice, language: Lang)

  /** The text of each notice in each language. */
  function Message(n: Notice, l: Lang): string {
    match n
    case SynthesisUnsupported =>
      if l == En then "Speech synthesis not supported in this browser" else "इस ब्राउज़र में वॉइस सपोर्ट उपलब्ध नहीं है"
    case SpeakFailed =>
      if l == En then "Failed to start speech synthesis" else "ध्वनि प्रारंभ करने में विफल"
    case NoSpeechRetry =>
      if l == En then "No speech detected. Please try again." else "कोई आवाज़ नहीं मिली। कृपया पुनः प्रयास करें।"
    case ProcessFailed =>
      if l == En then "Error processing voice command. Please try again." else "आदेश प्रसंस्करण में त्रुटि। कृपया पुनः प्रयास करें।"
    case RecognitionUnsupported =>
      if l == En then "Speech recognition not supported" else "वॉइस रिकग्निशन सपोर्ट नहीं है"
    case NoSpeechInTime =>
      if l == En then "No speech detected within time limit" else "समय सीमा के भीतर कोई आवाज़ नहीं मिली"
    case NoSpeech =>
      if l == En then "No speech detected" else "कोई आवाज़ नहीं मिली"
  }

  /** The `voices.find` test, as written: the voice's `lang` contains the full tag or the bare code. */
  predicate PrefersVoice(v: Voice, l: Lang) {
    if l == Hi then Contains(v.lang, "hi-IN") || Contains(v.lang, "hi")
    else Contains(v.lang, "en-US") || Contains(v.lang, "en")
  }

  /** The tag test is subsumed: a voice is preferred exactly when its `lang` contains the language code. */
  lemma PrefersVoiceByCode(v: Voice, l: Lang)
    ensures PrefersVoice(v, l) <==> Contains(v.lang, Code(l))
  {
    if Contains(v.lang, Tag(l)) {
      ContainsPrefix(v.lang, Tag(l), 2);
    }
  }

  /** `voices.find(...)` with the test above. */
  function PreferredVoice(voices: seq<Voice>, l: Lang): Option<Voice> {
    if voices == [] then None
    else if PrefersVoice(voices[0], l) then Some(voices[0])
    else PreferredVoice(voices[1..], l)
  }

  /** No voice is chosen exactly when no voice's `lang` contains the language code. */
  lemma {:induction false} PreferredVoiceNone(voices: seq<Voice>, l: Lang)
    ensures PreferredVoice(voices, l).None? <==> forall v :: v in voices ==> !Contains(v.lang, Code(l))
  {
    if voices != [] {
      var first, rest := voices[0], voices[1..];
      PrefersVoiceByCode(first, l);
      if !PrefersVoice(first, l) {
        PreferredVoiceNone(rest, l);
        assert forall v :: v in voices <==> v == first || v in rest by {
          assert voices == [first] + rest;
        }
      }
    }
  }

  /** The voice chosen is the first on offer whose `lang` contains the language code. */
  lemma {:induction false} PreferredVoiceIsFirst(voices: seq<Voice>, l: Lang)
    requires PreferredVoice(voices, l).Some?
    ensures exists k :: 0 <= k < |voices| && voices[k] == PreferredVoice(voices, l).value
                        && Contains(voices[k].lang, Code(l))
                        && forall j :: 0 <= j < k ==> !Contains(voices[j].lang, Code(l))
  {
    var first, rest := voices[0], voices[1..];
    PrefersVoiceByCode(first, l);
    if PrefersVoice(first, l) {
      assert voices[0] == PreferredVoice(voices, l).value;
    } else {
      PreferredVoiceIsFirst(rest, l);
      var k :| 0 <= k < |rest| && rest[k] == PreferredVoice(rest, l).value
               && Contains(rest[k].lang, Code(l))
               && forall j :: 0 <= j < k ==> !Contains(rest[j].lang, Code(l));
      assert voices[k + 1] == rest[k];
      forall j | 0 <= j < k + 1 ensures !Contains(voices[j].lang, Code(l)) {
        if j > 0 {
          assert voices[j] == rest[j - 1];
        }
      }
    }
  }

  /** All state fields of the page, for stating what a handler leaves untouched. */
  datatype Snapshot = Snapshot(
    response: string,
    loading: bool,
    isSpeaking: bool,
    error: Option<Alert>,
    language: Lang,
    transcript: string,
    listening: bool,
    currentUtterance: Option<Utterance>,
    recognitionTimeout: Option<TimerClosure>,
    pending: Option<VoiceRequest>,
    synthQueue: seq<Utterance>)

  // The transition functions below are the specification of the handlers:
  // each method of `VoiceSession` promises that its new state is one of them
  // applied to its old state.

  /** The page state after `speak(text)` from a closure that captured `lang`. */
  function AfterSpeak(s: Snapshot, synthesisSupported: bool, text: string, lang: Lang,
                      voices: seq<Voice>, speakThrows: bool): Snapshot
  {
    if !synthesisSupported then s.(error := Some(Alert(SynthesisUnsupported, lang)))
    else
      var u := Utterance(text, Tag(lang), PreferredVoice(voices, lang));
      if speakThrows then
        s.(currentUtterance := Some(u), synthQueue := [], error := Some(Alert(SpeakFailed, lang)), isSpeaking := false)
      else
        s.(currentUtterance := Some(u), synthQueue := [u])
  }

  /** What the page shows, and speaks, for the outcome of its request. */
  function Shown(outcome: FetchOutcome, lang: Lang): string {
    if outcome.Replied? then outcome.response else Message(ProcessFailed, lang)
  }

  /** The page state after `startListening`. */
  function AfterStart(s: Snapshot, recognitionSupported: bool): Snapshot {
    if !recognitionSupported then s.(error := Some(Alert(RecognitionUnsupported, s.language)))
    else s.(error := None, transcript := [], response := [], listening := true,
            recognitionTimeout := Some(TimerClosure(s.listening, s.transcript, s.language)))
  }

  /** The request `handleProcess` posts for what was heard: the trimmed text, unless it is empty. */
  function Issued(heard: string, lang: Lang): (r: Option<VoiceRequest>)
    ensures r.Some? ==> r.value.query != [] && Unpadded(r.value.query)
  {
    TrimUnpadded(heard);
    if Trim(heard) == [] then None else Some(VoiceRequest(Trim(heard), lang))
  }

  /** The page state after the synchronous part of `handleProcess`. */
  function AfterProcess(s: Snapshot, heard: string, lang: Lang): Snapshot {
    if Trim(heard) == [] then s.(error := Some(Alert(NoSpeechRetry, lang)))
    else s.(loading := true, error := None, recognitionTimeout := None, pending := Issued(heard, lang))
  }

  /** The page state after `stopListening`. */
  function AfterStop(s: Snapshot): Snapshot {
    var stopped := s.(listening := false, recognitionTimeout := None);
    if Trim(s.transcript) == [] then stopped.(error := Some(Alert(NoSpeech, s.language)))
    else AfterProcess(stopped, s.transcript, s.language)
  }

  /** The page state after `toggleListening`. */
  function AfterToggle(s: Snapshot, recognitionSupported: bool): Snapshot {
    if s.listening then AfterStop(s) else AfterStart(s, recognitionSupported)
  }

  /**
   * The page state after a timeout callback that captured `c` finds a
   * capture to stop: it stops it, then processes the transcript it sees or
   * reports that nothing was heard in time, in the language it sees.
   */
  function AfterTimeout(s: Snapshot, c: TimerClosure): Snapshot {
    var stopped := s.(listening := false, recognitionTimeout := None);
    if Trim(c.transcript) == [] then stopped.(error := Some(Alert(NoSpeechInTime, c.language)))
    else AfterProcess(stopped, c.transcript, c.language)
  }

  /**
   * The page state after the cleanup of the effect keyed on the synthesis
   * flag and `listening`. Despite its "unmount" comment, React runs it
   * whenever `listening` changes: it cancels the speech engine (with
   * synthesis) and clears whatever timeout the ref holds.
   */
  function AfterListeningEffect(s: Snapshot, synthesisSupported: bool): Snapshot {
    s.(recognitionTimeout := None, synthQueue := if synthesisSupported then [] else s.synthQueue)
  }

  class VoiceSession {
    /** `browserSupportsSpeechRecognition`, fixed once the page has mounted. */
    const recognitionSupported: bool
    /** `browserCompatibility.speechSynthesis`, fixed once the page has mounted. */
    const synthesisSupported: bool

    var response: string
    var loading: bool
    var isSpeaking: bool
    var error: Option<Alert>
    var language: Lang
    /** The recognizer's transcript and capture flag (state of the speech-recognition hook). */
    var transcript: string
    var listening: bool
    /** The `currentUtterance` and `recognitionTimeout` refs; a spent timer is `None`. */
    var currentUtterance: Option<Utterance>
    var recognitionTimeout: Option<TimerClosure>
    /** The request awaiting its reply, with the language its handler captured. */
    var pending: Option<VoiceRequest>
    /** The utterances queued in the browser's speech engine. */
    var synthQueue: seq<Utterance>

    function State(): Snapshot
      reads this
    {
      Snapshot(response, loading, isSpeaking, error, language, transcript, listening,
               currentUtterance, recognitionTimeout, pending, synthQueue)
    }

    /**
     * `loading` is set exactly while a request is in flight, and no timer is
     * armed then; the engine holds at most one utterance, the current one;
     * without synthesis nothing is ever queued.
     */
    ghost predicate Valid()
      reads this
    {
      && (loading <==> pending.Some?)
      && (loading ==> recognitionTimeout.None?)
      && (synthQueue == [] || (currentUtterance.Some? && synthQueue == [currentUtterance.value]))
      && (!synthesisSupported ==> currentUtterance.None? && synthQueue == [])
    }

    constructor (recognition: bool, synthesis: bool)
      ensures Valid()
      ensures recognitionSupported == recognition && synthesisSupported == synthesis
      ensures State() == Snapshot("", false, false, None, En, "", false, None, None, None, [])
    {
      recognitionSupported, synthesisSupported := recognition, synthesis;
      response, loading, isSpeaking, error, language := "", false, false, None, En;
      transcript, listening := "", false;
      currentUtterance, recognitionTimeout, pending, synthQueue := None, None, None, [];
    }

    /**
     * `speak(text)` of a closure that captured `lang`: cancels the engine if
     * an utterance is current, then installs and queues the new one.
     */
    method Speak(text: string, lang: Lang, voices: seq<Voice>, speakThrows: bool)
      requires Valid()
      modifies this
      ensures Valid()
      ensures State() == AfterSpeak(old(State()), synthesisSupported, text, lang, voices, speakThrows)
      ensures synthesisSupported && !speakThrows ==> synthQueue == [currentUtterance.value]
      ensures synthesisSupported ==> currentUtterance.Some? && currentUtterance.value.text == text
                                     && currentUtterance.value.lang == Tag(lang)
    {
      if !synthesisSupported {
        error := Some(Alert(SynthesisUnsupported, lang));
        return;
      }
      if currentUtterance.Some? {
        synthQueue := [];  // speechSynthesis.cancel()
      }
      var u := Utterance(text, Tag(lang), PreferredVoice(voices, lang));
      currentUtterance := Some(u);
      if speakThrows {
        error := Some(Alert(SpeakFailed, lang));
        isSpeaking := false;
      } else {
        synthQueue := synthQueue + [u];
      }
    }

    /** The utterance's `onstart` event. */
    method UtteranceStarted()
      requires Valid()
      modifies this
      ensures Valid()
      ensures State() == old(State()).(isSpeaking := true, error := None)
    {
      isSpeaking := true;
      error := None;
    }

    /** The utterance's `onend` or `onerror` event: the engine has dropped it. */
    method UtteranceFinished()
      requires Valid()
      modifies this
      ensures Valid()
      ensures State() == old(State()).(isSpeaking := false, currentUtterance := None, synthQueue := [])
    {
      isSpeaking := false;
      currentUtterance := None;
      synthQueue := [];
    }

    /** `stopSpeaking`: acts only while speaking. */
    method StopSpeaking()
      requires Valid()
      modifies this
      ensures Valid()
      ensures synthesisSupported && old(isSpeaking) ==>
                State() == old(State()).(synthQueue := [], isSpeaking := false, currentUtterance := None)
      ensures !(synthesisSupported && old(isSpeaking)) ==> State() == old(State())
    {
      if synthesisSupported && isSpeaking {
        synthQueue := [];  // speechSynthesis.cancel()
        isSpeaking := false;
        currentUtterance := None;
      }
    }

    /** The recognizer reports the transcript so far. */
    method TranscriptChanged(heard: string)
      requires Valid() && listening
      modifies this
      ensures Valid()
      ensures State() == old(State()).(transcript := heard)
    {
      transcript := heard;
    }

    /** The recognizer ends the capture on its own. */
    method RecognitionEnded()
      requires Valid()
      modifies this
      ensures Valid()
      ensures State() == old(State()).(listening := false)
    {
      listening := false;
    }

    /**
     * The cleanup of the `listening` effect, run after each render in which
     * `listening` changed. Its `stopListening` call, made when the old
     * `listening` was true, finds the capture already stopped.
     */
    method ListeningEffectCleanup()
      requires Valid()
      modifies this
      ensures Valid() && recognitionTimeout.None? && synthQueue == []
      ensures State() == AfterListeningEffect(old(State()), synthesisSupported)
    {
      if synthesisSupported {
        synthQueue := [];  // speechSynthesis.cancel()
      }
      recognitionTimeout := None;
    }

    /**
     * `startListening`: clears the error, the transcript and the reply, starts
     * the capture and arms the timeout, whose callback captures the current
     * `listening`, `transcript` and `language`. Its one caller, the mic button,
     * is disabled while a request is in flight.
     */
    method StartListening()
      requires Valid() && !loading
      modifies this
      ensures Valid()
      ensures State() == AfterStart(old(State()), recognitionSupported)
      ensures !recognitionSupported ==> error == Some(Alert(RecognitionUnsupported, language))
      ensures recognitionSupported ==> error.None? && transcript == [] && response == [] && listening
    {
      if !recognitionSupported {
        error := Some(Alert(RecognitionUnsupported, language));
        return;
      }
      var captured := TimerClosure(listening, transcript, language);
      error := None;
      transcript := [];
      response := [];
      listening := true;
      recognitionTimeout := Some(captured);
    }

    /**
     * `handleProcess` of a closure that captured `heard` and `lang`: with
     * something heard, posts it (trimmed) and marks the page as loading.
     */
    method HandleProcess(heard: string, lang: Lang) returns (sent: Option<VoiceRequest>)
      requires Valid() && !loading
      modifies this
      ensures Valid()
      ensures State() == AfterProcess(old(State()), heard, lang) && sent == Issued(heard, lang)
      ensures Trim(heard) == [] ==> sent.None? && error == Some(Alert(NoSpeechRetry, lang))
      ensures Trim(heard) != [] ==> sent == Some(VoiceRequest(Trim(heard), lang)) && loading && error.None?
    {
      var command := Trim(heard);
      if command == [] {
        error := Some(Alert(NoSpeechRetry, lang));
        sent := None;
        return;
      }
      loading := true;
      error := None;
      recognitionTimeout := None;
      sent := Some(VoiceRequest(command, lang));
      pending := sent;
    }

    /**
     * The rest of `handleProcess`, once the request settles: the reply, or
     * the language's error message as both error and reply, is shown and, if
     * synthesis exists, spoken; `loading` ends whatever the outcome.
     */
    method ReceiveReply(outcome: FetchOutcome, voices: seq<Voice>, speakThrows: bool)
      requires Valid() && pending.Some?
      modifies this
      ensures Valid() && !loading && pending.None?
      ensures response == Shown(outcome, old(pending).value.language)
      ensures outcome.RequestFailed? && !(synthesisSupported && speakThrows) ==>
                error == Some(Alert(ProcessFailed, old(pending).value.language))
      ensures synthesisSupported ==> currentUtterance.Some? && currentUtterance.value.text == response
      ensures !synthesisSupported ==> synthQueue == [] && currentUtterance.None?
      ensures var lang := old(pending).value.language;
              var shown := Shown(outcome, lang);
              var s1 := old(State()).(response := shown,
                                      error := if outcome.Replied? then old(error) else Some(Alert(ProcessFailed, lang)));
              var s2 := if synthesisSupported then AfterSpeak(s1, true, shown, lang, voices, speakThrows) else s1;
              State() == s2.(loading := false, pending := None)
    {
      var lang := pending.value.language;
      var shown := Shown(outcome, lang);
      response := shown;
      if outcome.RequestFailed? {
        error := Some(Alert(ProcessFailed, lang));
      }
      if synthesisSupported {
        Speak(shown, lang, voices, speakThrows);
      }
      loading := false;
      pending := None;
    }

    /**
     * `stopListening`: stops the capture, clears the timeout, then either
     * processes the transcript or reports that nothing was heard.
     */
    method StopListening() returns (sent: Option<VoiceRequest>)
      requires Valid() && !loading
      modifies this
      ensures Valid() && !listening && recognitionTimeout.None?
      ensures State() == AfterStop(old(State())) && sent == Issued(old(transcript), old(language))
      ensures Trim(old(transcript)) == [] ==> sent.None? && error == Some(Alert(NoSpeech, language))
    {
      listening := false;
      recognitionTimeout := None;
      if Trim(transcript) != [] {
        sent := HandleProcess(transcript, language);
      } else {
        error := Some(Alert(NoSpeech, language));
        sent := None;
      }
    }

    /** `toggleListening`: stops a running capture, otherwise starts one. */
    method ToggleListening() returns (sent: Option<VoiceRequest>)
      requires Valid() && !loading
      modifies this
      ensures Valid()
      ensures State() == AfterToggle(old(State()), recognitionSupported)
      ensures sent == if old(listening) then Issued(old(transcript), old(language)) else None
      ensures !old(listening) && recognitionSupported ==>
                recognitionTimeout == Some(TimerClosure(false, old(transcript), old(language)))
    {
      if listening {
        sent := StopListening();
      } else {
        StartListening();
        sent := None;
      }
    }

    /** The mic button, which is disabled while loading or speaking. */
    method PressMicButton() returns (sent: Option<VoiceRequest>)
      requires Valid()
      modifies this
      ensures Valid()
      ensures old(loading || isSpeaking) ==> sent.None? && State() == old(State())
      ensures !old(loading || isSpeaking) ==>
                && State() == AfterToggle(old(State()), recognitionSupported)
                && sent == if old(listening) then Issued(old(transcript), old(language)) else None
      ensures sent.Some? ==> loading && pending == sent
    {
      if loading || isSpeaking {
        sent := None;
      } else {
        sent := ToggleListening();
      }
    }

    /**
     * The language button and the effect that follows it: while an utterance
     * is being spoken, it is stopped and the reply is spoken again in the new
     * language.
     */
    method ToggleLanguage(voices: seq<Voice>, speakThrows: bool)
      requires Valid()
      modifies this
      ensures Valid()
      ensures language == Toggle(old(language))
      ensures old(isSpeaking && currentUtterance.Some?) ==>
                State() == AfterSpeak(old(State()).(language := Toggle(old(language)), isSpeaking := false,
                                                    currentUtterance := None, synthQueue := []),
                                      synthesisSupported, old(response), Toggle(old(language)), voices, speakThrows)
      ensures !old(isSpeaking && currentUtterance.Some?) ==>
                State() == old(State()).(language := Toggle(old(language)))
    {
      language := Toggle(language);
      if isSpeaking && currentUtterance.Some? {
        StopSpeaking();
        Speak(response, language, voices, speakThrows);
      }
    }

    /**
     * The 30-second timeout callback, as written: it tests the `listening`
     * value it captured, not the current one.
     */
    method RecognitionTimeoutFires() returns (sent: Option<VoiceRequest>)
      requires Valid() && recognitionTimeout.Some?
      modifies this
      ensures Valid() && recognitionTimeout.None?
      ensures var c := old(recognitionTimeout).value;
              && State() == (if c.listening then AfterTimeout(old(State()), c)
                             else old(State()).(recognitionTimeout := None))
              && sent == (if c.listening then Issued(c.transcript, c.language) else None)
    {
      var captured := recognitionTimeout.value;
      recognitionTimeout := None;
      if captured.listening {
        listening := false;
        if Trim(captured.transcript) != [] {
          sent := HandleProcess(captured.transcript, captured.language);
        } else {
          error := Some(Alert(NoSpeechInTime, captured.language));
          sent := None;
        }
      } else {
        sent := None;
      }
    }

    /**
     * The timeout callback as evidently intended: it tests the live
     * `listening` flag and submits the live transcript. It can only fire if
     * the `listening` effect also leaves an armed timer alone, running its
     * cleanup on unmount only, as its comment says.
     */
    method RecognitionTimeoutFiresLive() returns (sent: Option<VoiceRequest>)
      requires Valid() && recognitionTimeout.Some?
      modifies this
      ensures Valid() && recognitionTimeout.None? && !listening
      ensures old(listening) ==> sent == Issued(old(transcript), old(language))
      ensures old(listening) ==>
                State() == AfterTimeout(old(State()), TimerClosure(true, old(transcript), old(language)))
      ensures old(listening) && Trim(old(transcript)) != [] ==> loading && pending == sent
      ensures old(listening) && Trim(old(transcript)) == [] ==>
                sent.None? && error == Some(Alert(NoSpeechInTime, old(language)))
      ensures !old(listening) ==> sent.None? && State() == old(State()).(recognitionTimeout := None)
    {
      recognitionTimeout := None;
      if listening {
        listening := false;
        if Trim(transcript) != [] {
          sent := HandleProcess(transcript, language);
        } else {
          error := Some(Alert(NoSpeechInTime, language));
          sent := None;
        }
      } else {
        sent := None;
      }
    }
  }

  /**
   * Start a capture with the mic button, hear something, let the timeout
   * fire: even if the timer survived, the callback as written leaves the
   * capture running and submits nothing.
   */
  method TimeoutAfterToggle() returns (stillListening: bool, sent: Option<VoiceRequest>)
    ensures stillListening && sent.None?
  {
    var session := new VoiceSession(true, true);
    var started := session.PressMicButton();
    session.TranscriptChanged("hello");
    sent := session.RecognitionTimeoutFires();
    stillListening := session.listening;
  }

  lemma HelloIsItsOwnTrim()
    ensures Trim("hello") == "hello"
  {
    assert !IsWhitespace('h') && !IsWhitespace('o');
    TrimOfUnpadded("hello");
  }

  /**
   * Start a capture with the mic button: the change of `listening` runs the
   * effect cleanup, which clears the timer just armed, so no timeout ever
   * ends this capture.
   */
  method TimeoutClearedOnStart() returns (stillListening: bool, armed: bool)
    ensures stillListening && !armed
  {
    var session := new VoiceSession(true, true);
    var started := session.PressMicButton();
    assert session.listening && session.recognitionTimeout.Some?;
    session.ListeningEffectCleanup();
    session.TranscriptChanged("hello");
    stillListening := session.listening;
    armed := session.recognitionTimeout.Some?;
  }

  /**
   * The same sequence as `TimeoutAfterToggle` with the corrected callback,
   * and with the `listening` effect cleaned up only on unmount: the timeout
   * stops the capture and submits what was heard.
   */
  method TimeoutAfterToggleLive() returns (stillListening: bool, sent: Option<VoiceRequest>)
    ensures !stillListening && sent == Some(VoiceRequest("hello", En))
  {
    HelloIsItsOwnTrim();
    var session := new VoiceSession(true, true);
    var started := session.PressMicButton();
    assert session.listening && session.language == En && session.recognitionTimeout.Some?;
    session.TranscriptChanged("hello");
    sent := session.RecognitionTimeoutFiresLive();
    stillListening := session.listening;
  }

  /**
   * A request the page issues always passes the route's query and language
   * guards; the route refuses it only when it is over the length limit, and
   * otherwise forwards it unchanged.
   */
  lemma IssuedRequestAccepted(heard: string, lang: Lang, apiKey: Option<string>, upstream: VoiceRoute.Upstream)
    requires Trim(heard) != [] && VoiceRoute.KeyConfigured(apiKey)
    ensures var r := VoiceRequest(Trim(heard), lang);
            var h := VoiceRoute.Post(apiKey, VoiceRoute.Parsed(Json.Str(r.query), Json.Str(Code(r.language))), upstream);
            && (h.sent.Some? <==> Utf16Length(r.query) <= VoiceRoute.MaxQueryLength)
            && (h.sent.Some? ==> h.sent.value.userContent == VoiceRoute.UserContent(heard, lang))
            && (h.sent.None? ==> h.response == VoiceRoute.Reject(422, VoiceRoute.LengthErrorMessage))
  {
    var q := Trim(heard);
    assert Trim(q) == q by { TrimIdempotent(heard); }
    VoiceRoute.UsableQueryDecidedByLength(q, lang);
  }
}
