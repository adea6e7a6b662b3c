/** The speech-recognition hook of the web client
    (frontend/src/hooks/useSpeechRecognition.ts): the language-code map, the
    aggregation of recognition results into one transcript, and the
    listening state the start/stop requests and the engine's callbacks
    drive. The browser's recognition engine is left out: the requests sent
    to it are recorded, and its callbacks are methods. */
module SpeechRecognition {
  import opened Common

  /** `langMap[language] || language`. */
  function RecognitionLang(language: string): (lang: string)
    ensures language == "en" ==> lang == "en-US"
    ensures language == "am" ==> lang == "am-ET"
    ensures language == "om" ==> lang == "om-ET"
    ensures language != "en" && language != "am" && language != "om" ==> lang == language
  {
    if language == "en" then "en-US"
    else if language == "am" then "am-ET"
    else if language == "om" then "om-ET"
    else language
  }

  /** One entry of the event's result list: whether it is final, and the
      transcript of its first alternative. */
  datatype RecognitionResult = RecognitionResult(isFinal: bool, transcript: string)

  /** The final results' transcripts, concatenated in order. */
  function FinalText(results: seq<RecognitionResult>): string {
    if results == [] then ""
    else
      var last := results[|results| - 1];
      FinalText(results[..|results| - 1]) + (if last.isFinal then last.transcript else "")
  }

  /** The interim results' transcripts, concatenated in order. */
  function InterimText(results: seq<RecognitionResult>): string {
    if results == [] then ""
    else
      var last := results[|results| - 1];
      InterimText(results[..|results| - 1]) + (if last.isFinal then "" else last.transcript)
  }

  /** The loop of `onresult`: one pass over the results, appending each
      transcript to the final or the interim text; the transcript shown is
      the final text unless it is empty. */
  method Aggregate(results: seq<RecognitionResult>) returns (transcript: string)
    ensures transcript == if FinalText(results) != "" then FinalText(results) else InterimText(results)
  {
    var finalTranscript := "";
    var interimTranscript := "";
    var i := 0;
    while i < |results|
      invariant 0 <= i <= |results|
      invariant finalTranscript == FinalText(results[..i])
      invariant interimTranscript == InterimText(results[..i])
    {
      var result := results[i];
      assert results[..i + 1][..i] == results[..i];
      if result.isFinal {
        finalTranscript := finalTranscript + result.transcript;
      } else {
        interimTranscript := interimTranscript + result.transcript;
      }
      i := i + 1;
    }
    assert results[..i] == results;
    transcript := if finalTranscript != "" then finalTranscript else interimTranscript;
  }

  /** Results that arrive later are appended after earlier ones, on both sides. */
  lemma TextsSplit(a: seq<RecognitionResult>, b: seq<RecognitionResult>)
    ensures FinalText(a + b) == FinalText(a) + FinalText(b)
    ensures InterimText(a + b) == InterimText(a) + InterimText(b)
  {
    FinalSplit(a, b);
    InterimSplit(a, b);
  }

  lemma {:induction false} FinalSplit(a: seq<RecognitionResult>, b: seq<RecognitionResult>)
    ensures FinalText(a + b) == FinalText(a) + FinalText(b)
    decreases |b|
  {
    if b == [] {
      assert a + b == a;
    } else {
      var init := b[..|b| - 1];
      var last := b[|b| - 1];
      var ab := a + b;
      FinalSplit(a, init);
      assert ab[..|ab| - 1] == a + init;
      assert ab[|ab| - 1] == last;
      assert FinalText(ab) == FinalText(a + init) + (if last.isFinal then last.transcript else "");
      assert FinalText(b) == FinalText(init) + (if last.isFinal then last.transcript else "");
    }
  }

  lemma {:induction false} InterimSplit(a: seq<RecognitionResult>, b: seq<RecognitionResult>)
    ensures InterimText(a + b) == InterimText(a) + InterimText(b)
    decreases |b|
  {
    if b == [] {
      assert a + b == a;
    } else {
      var init := b[..|b| - 1];
      var last := b[|b| - 1];
      var ab := a + b;
      InterimSplit(a, init);
      assert ab[..|ab| - 1] == a + init;
      assert ab[|ab| - 1] == last;
      assert InterimText(ab) == InterimText(a + init) + (if last.isFinal then "" else last.transcript);
      assert InterimText(b) == InterimText(init) + (if last.isFinal then "" else last.transcript);
    }
  }

  /** Each result's transcript lands in exactly one of the two texts: the
      total length of the two is the total of all transcripts. */
  function TotalLength(results: seq<RecognitionResult>): nat {
    if results == [] then 0 else TotalLength(results[..|results| - 1]) + |results[|results| - 1].transcript|
  }

  lemma {:induction false} TextsPartition(results: seq<RecognitionResult>)
    ensures |FinalText(results)| + |InterimText(results)| == TotalLength(results)
  {
    if results != [] {
      TextsPartition(results[..|results| - 1]);
    }
  }

  /** A final result with a non-empty transcript hides the interim ones. */
  lemma {:induction false} FinalWins(results: seq<RecognitionResult>, i: nat)
    requires i < |results| && results[i].isFinal && results[i].transcript != ""
    ensures FinalText(results) != ""
  {
    var prefix := results[..i + 1];
    assert prefix[..i] == results[..i];
    FinalSplit(prefix, results[i + 1..]);
    assert prefix + results[i + 1..] == results;
  }

  /** Without any final result the transcript is the interim text. */
  lemma {:induction false} NoFinalNoText(results: seq<RecognitionResult>)
    requires forall i :: 0 <= i < |results| ==> !results[i].isFinal
    ensures FinalText(results) == ""
  {
    if results != [] {
      NoFinalNoText(results[..|results| - 1]);
    }
  }

  /** A request the hook sends to the engine. */
  datatype Request = StartEngine | StopEngine | AbortEngine

  class Recognizer {
    /** Whether the browser offers recognition (`isSupported`). */
    const supported: bool
    /** The engine language. */
    const lang: string
    /** Whether an engine instance exists (`recognition !== null`). */
    var hasInstance: bool
    var isListening: bool
    var transcript: string
    var error: Option<string>
    /** The requests sent to the engine, oldest first. */
    var sent: seq<Request>

    /** Mounting the hook: an engine instance exists exactly when
        recognition is supported. */
    constructor(isSupported: bool, language: string)
      ensures supported == isSupported && hasInstance == isSupported
      ensures lang == RecognitionLang(language)
      ensures !isListening && transcript == "" && error.None? && sent == []
    {
      supported := isSupported;
      lang := RecognitionLang(language);
      hasInstance := isSupported;
      isListening := false;
      transcript := "";
      error := None;
      sent := [];
    }

    /** `startListening`: only with an instance that is not listening; it
        clears the transcript and the error before starting the engine. */
    method StartListening()
      modifies this
      ensures old(hasInstance && !isListening) ==>
        transcript == "" && error.None? && sent == old(sent) + [StartEngine]
      ensures !old(hasInstance && !isListening) ==>
        transcript == old(transcript) && error == old(error) && sent == old(sent)
      ensures isListening == old(isListening) && hasInstance == old(hasInstance)
    {
      if hasInstance && !isListening {
        transcript := "";
        error := None;
        sent := sent + [StartEngine];
      }
    }

    /** `stopListening`: only while listening. */
    method StopListening()
      modifies this
      ensures sent == if old(hasInstance && isListening) then old(sent) + [StopEngine] else old(sent)
      ensures isListening == old(isListening) && transcript == old(transcript) && error == old(error)
      ensures hasInstance == old(hasInstance)
    {
      if hasInstance && isListening {
        sent := sent + [StopEngine];
      }
    }

    /** `onstart`. */
    method OnStart()
      modifies this
      ensures isListening && error.None?
      ensures transcript == old(transcript) && sent == old(sent) && hasInstance == old(hasInstance)
    {
      isListening := true;
      error := None;
    }

    /** `onerror`. */
    method OnError(code: string)
      modifies this
      ensures !isListening && error == Some(code)
      ensures transcript == old(transcript) && sent == old(sent) && hasInstance == old(hasInstance)
    {
      error := Some(code);
      isListening := false;
    }

    /** `onend`. */
    method OnEnd()
      modifies this
      ensures !isListening
      ensures transcript == old(transcript) && error == old(error) && sent == old(sent)
      ensures hasInstance == old(hasInstance)
    {
      isListening := false;
    }

    /** `onresult`. */
    method OnResult(results: seq<RecognitionResult>)
      modifies this
      ensures transcript == if FinalText(results) != "" then FinalText(results) else InterimText(results)
      ensures isListening == old(isListening) && error == old(error) && sent == old(sent)
      ensures hasInstance == old(hasInstance)
    {
      transcript := Aggregate(results);
    }

    /** Unmounting aborts the engine. */
    method Unmount()
      requires hasInstance
      modifies this
      ensures sent == old(sent) + [AbortEngine]
      ensures isListening == old(isListening) && transcript == old(transcript) && error == old(error)
      ensures hasInstance == old(hasInstance)
    {
      sent := sent + [AbortEngine];
    }
  }

  /** A start while already listening sends nothing: starting, being told
      the engine started, and starting again sends one start request. */
  method StartTwiceSendsOnce(r: Recognizer)
    requires r.hasInstance && !r.isListening
    modifies r
    ensures r.sent == old(r.sent) + [StartEngine]
  {
    r.StartListening();
    r.OnStart();
    r.StartListening();
  }
}
