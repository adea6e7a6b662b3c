/** The text-to-speech hook of the web client
    (frontend/src/hooks/useTextToSpeech.ts): which languages are spoken, the
    notice shown for those that are not, the default-voice choice, and the
    speaking state the speak/stop requests and the utterance callbacks
    drive. The browser's synthesis engine is left out: the requests sent
    to it are recorded. */
module TextToSpeech {
  import opened Common

  /** Languages browsers have no good voice for. */
  const UnsupportedLanguages: seq<string> := ["am", "om"]

  /** `isLanguageSupported`. */
  function IsLanguageSupported(lang: string): (ok: bool)
    ensures !ok <==> lang == "am" || lang == "om"
  {
    lang !in UnsupportedLanguages
  }

  const VoicePrefix: string := "Voice is not available for "
  const ShownAbove: string := ". The text response is shown above."
  const AmharicWord: string := "Amharic"
  const OromoWord: string := "Afan Oromo"

  /** The notice naming a language without a voice. */
  function Notice(languageName: string): string {
    VoicePrefix + languageName + ShownAbove
  }

  /** `unsupportedMessage`: a notice exactly for the unsupported languages. */
  function UnsupportedMessage(lang: string): (m: Option<string>)
    ensures m.Some? <==> !IsLanguageSupported(lang)
    ensures lang == "am" ==> m == Some(Notice(AmharicWord))
    ensures lang == "om" ==> m == Some(Notice(OromoWord))
  {
    if lang == "am" then Some(Notice(AmharicWord))
    else if lang == "om" then Some(Notice(OromoWord))
    else None
  }

  /** The two notices name different languages. */
  lemma NoticesDiffer()
    ensures UnsupportedMessage("am") != UnsupportedMessage("om")
  {
    assert |Notice(AmharicWord)| != |Notice(OromoWord)|;
  }

  /** A voice the browser offers. */
  datatype Voice = Voice(name: string, lang: string)

  /** `voices.find(v => v.lang.startsWith(prefix))`, as an index. */
  function FindVoice(voices: seq<Voice>, prefix: string): (r: Option<nat>)
    ensures r.Some? ==>
      && r.value < |voices| && StartsWith(voices[r.value].lang, prefix)
      && forall j :: 0 <= j < r.value ==> !StartsWith(voices[j].lang, prefix)
    ensures r.None? ==> forall j :: 0 <= j < |voices| ==> !StartsWith(voices[j].lang, prefix)
  {
    if voices == [] then None
    else if StartsWith(voices[0].lang, prefix) then Some(0)
    else
      var rest := FindVoice(voices[1..], prefix);
      if rest.None? then None else Some(rest.value + 1)
  }

  /** The language code the default voice should speak. */
  function VoiceCode(lang: string): string {
    if lang == "am" then "am" else if lang == "om" then "om" else "en"
  }

  /** The default voice: the first in the code's language, else the first
      English one, else the first of all; none when there are no voices. */
  function DefaultVoice(voices: seq<Voice>, lang: string): (r: Option<Voice>)
    ensures r.None? <==> voices == []
    ensures r.Some? ==> r.value in voices
  {
    var own := FindVoice(voices, VoiceCode(lang));
    if own.Some? then Some(voices[own.value])
    else
      var english := FindVoice(voices, "en");
      if english.Some? then Some(voices[english.value])
      else if voices != [] then Some(voices[0])
      else None
  }

  /** The fallback order: a voice in the page language wins, and the first
      such voice is taken; failing that the first English voice; failing
      that the first voice. */
  lemma DefaultVoiceOrder(voices: seq<Voice>, lang: string)
    ensures forall i :: 0 <= i < |voices| && StartsWith(voices[i].lang, VoiceCode(lang)) ==>
      exists k :: 0 <= k <= i && DefaultVoice(voices, lang) == Some(voices[k]) && StartsWith(voices[k].lang, VoiceCode(lang))
    ensures (forall i :: 0 <= i < |voices| ==> !StartsWith(voices[i].lang, VoiceCode(lang))) ==>
      forall i :: 0 <= i < |voices| && StartsWith(voices[i].lang, "en") ==>
        exists k :: 0 <= k <= i && DefaultVoice(voices, lang) == Some(voices[k]) && StartsWith(voices[k].lang, "en")
    ensures voices != [] && (forall i :: 0 <= i < |voices| ==>
      !StartsWith(voices[i].lang, VoiceCode(lang)) && !StartsWith(voices[i].lang, "en")) ==>
      DefaultVoice(voices, lang) == Some(voices[0])
  {
    var own := FindVoice(voices, VoiceCode(lang));
    var english := FindVoice(voices, "en");
    forall i | 0 <= i < |voices| && StartsWith(voices[i].lang, VoiceCode(lang))
      ensures exists k :: 0 <= k <= i && DefaultVoice(voices, lang) == Some(voices[k]) && StartsWith(voices[k].lang, VoiceCode(lang))
    {
      assert own.Some? && own.value <= i;
    }
    if forall i :: 0 <= i < |voices| ==> !StartsWith(voices[i].lang, VoiceCode(lang)) {
      forall i | 0 <= i < |voices| && StartsWith(voices[i].lang, "en")
        ensures exists k :: 0 <= k <= i && DefaultVoice(voices, lang) == Some(voices[k]) && StartsWith(voices[k].lang, "en")
      {
        assert english.Some? && english.value <= i;
      }
    }
  }

  /** What an utterance is spoken with. The rate is 0.9 as a fraction. */
  datatype Utterance = Utterance(text: string, voice: Option<Voice>, lang: string, rate: real, pitch: real, volume: real)

  /** A request the hook sends to the synthesis engine. */
  datatype Request = Cancel | Say(utterance: Utterance)

  const SpeakLang: string := "en-US"

  class Speaker {
    /** Whether the browser offers synthesis (`isSupported`). */
    const supported: bool
    /** The page language the hook was given. */
    const lang: string
    var isSpeaking: bool
    var voices: seq<Voice>
    var currentVoice: Option<Voice>
    /** The requests sent to the engine, oldest first. */
    var sent: seq<Request>

    constructor(isSupported: bool, language: string)
      ensures supported == isSupported && lang == language
      ensures !isSpeaking && voices == [] && currentVoice.None? && sent == []
    {
      supported := isSupported;
      lang := language;
      isSpeaking := false;
      voices := [];
      currentVoice := None;
      sent := [];
    }

    /** `loadVoices`: the offered voices, and the default voice when there is one. */
    method LoadVoices(available: seq<Voice>)
      modifies this
      ensures voices == available
      ensures currentVoice == if available == [] then old(currentVoice) else DefaultVoice(available, lang)
      ensures isSpeaking == old(isSpeaking) && sent == old(sent)
    {
      voices := available;
      var chosen := DefaultVoice(available, lang);
      if chosen.Some? {
        currentVoice := chosen;
      }
    }

    /** `speak(text)`: nothing without synthesis, without text or in a
        language without a voice; otherwise cancel what is playing and
        speak with the current voice in en-US at rate 0.9. */
    method Speak(text: string)
      modifies this
      ensures !supported || text == "" || !IsLanguageSupported(lang) ==> sent == old(sent)
      ensures supported && text != "" && IsLanguageSupported(lang) ==>
        sent == old(sent) + [Cancel, Say(Utterance(text, currentVoice, SpeakLang, 0.9, 1.0, 1.0))]
      ensures isSpeaking == old(isSpeaking) && currentVoice == old(currentVoice) && voices == old(voices)
    {
      if !supported || text == "" || !IsLanguageSupported(lang) {
        return;
      }
      sent := sent + [Cancel, Say(Utterance(text, currentVoice, SpeakLang, 0.9, 1.0, 1.0))];
    }

    /** `stop`: with synthesis, cancel and mark not speaking. */
    method Stop()
      modifies this
      ensures supported ==> sent == old(sent) + [Cancel] && !isSpeaking
      ensures !supported ==> sent == old(sent) && isSpeaking == old(isSpeaking)
      ensures currentVoice == old(currentVoice) && voices == old(voices)
    {
      if !supported {
        return;
      }
      sent := sent + [Cancel];
      isSpeaking := false;
    }

    /** The page being hidden cancels speech (the listener exists only with synthesis). */
    method OnVisibilityChange(hidden: bool)
      requires supported
      modifies this
      ensures hidden ==> sent == old(sent) + [Cancel] && !isSpeaking
      ensures !hidden ==> sent == old(sent) && isSpeaking == old(isSpeaking)
      ensures currentVoice == old(currentVoice) && voices == old(voices)
    {
      if hidden {
        sent := sent + [Cancel];
        isSpeaking := false;
      }
    }

    /** `beforeunload` cancels speech and leaves the speaking flag alone. */
    method OnBeforeUnload()
      requires supported
      modifies this
      ensures sent == old(sent) + [Cancel]
      ensures isSpeaking == old(isSpeaking) && currentVoice == old(currentVoice) && voices == old(voices)
    {
      sent := sent + [Cancel];
    }

    /** Unmounting runs two cleanups, each of which cancels: the unmount
        effect, which also clears the speaking flag, and the effect that
        removes the page listeners. Without synthesis neither was set up. */
    method Unmount()
      modifies this
      ensures supported ==> sent == old(sent) + [Cancel, Cancel] && !isSpeaking
      ensures !supported ==> sent == old(sent) && isSpeaking == old(isSpeaking)
      ensures currentVoice == old(currentVoice) && voices == old(voices)
    {
      if !supported {
        return;
      }
      sent := sent + [Cancel];
      isSpeaking := false;
      sent := sent + [Cancel];
    }

    /** The utterance's `onstart`, `onend` and `onerror`. */
    method OnUtteranceStart()
      modifies this
      ensures isSpeaking && sent == old(sent) && currentVoice == old(currentVoice) && voices == old(voices)
    {
      isSpeaking := true;
    }

    method OnUtteranceEnd()
      modifies this
      ensures !isSpeaking && sent == old(sent) && currentVoice == old(currentVoice) && voices == old(voices)
    {
      isSpeaking := false;
    }

    /** `setVoice`. */
    method SetVoice(voice: Voice)
      modifies this
      ensures currentVoice == Some(voice)
      ensures isSpeaking == old(isSpeaking) && sent == old(sent) && voices == old(voices)
    {
      currentVoice := Some(voice);
    }
  }

  /** Amharic and Afan Oromo pages are never spoken: every request `speak`
      can send is for a supported language. */
  method SpeakOnAmharicPage(s: Speaker, text: string)
    requires s.lang == "am"
    modifies s
    ensures s.sent == old(s.sent)
  {
    s.Speak(text);
  }
}
