/** The generation service (backend/src/services/gemini.ts): the retry
    wrapper, the fenced-JSON extractor, the pre-call guards, the daily-plan
    minute normaliser, language detection and naming, and answer pairing for
    grading.

    The provider is not called: a call is represented by what it yields
    (`ProviderReply`), and an attempt inside the retry wrapper by what the
    race between the call and the 20-second timer yields (`Attempt`). Sleeping
    is represented by the list of delays the wrapper waits. `JSON.parse` is
    an opaque partial decoder passed in as a function. */
module Gemini {
  import opened Common
  import opened Domain
  import Prompts

  const MaxRetries: nat := 3
  const RequestTimeoutMs: nat := 20000

  // ---------------------------------------------------------------------
  // Errors
  // ---------------------------------------------------------------------

  datatype AIErrorCode = NoAnswer | Quota | Timeout | MalformedResponse | ApiKeyMissing | LlmError

  /** The codes as the frontend receives them. */
  function CodeName(c: AIErrorCode): string {
    match c
    case NoAnswer => "AI_NO_ANSWER"
    case Quota => "AI_QUOTA"
    case Timeout => "AI_TIMEOUT"
    case MalformedResponse => "AI_MALFORMED_RESPONSE"
    case ApiKeyMissing => "AI_API_KEY_MISSING"
    case LlmError => "LLM_ERROR"
  }

  /** A thrown value: an `AIError`, any other `Error`, or a value that is not
      an `Error` at all (truthy or not). */
  datatype Thrown =
    | AIError(message: string, code: AIErrorCode)
    | PlainError(message: string)
    | NonError(truthy: bool)

  /** `error instanceof Error ? error.message : 'Unknown error'`. */
  function MessageOf(t: Thrown): string {
    if t.NonError? then "Unknown error" else t.message
  }

  predicate IsQuotaSignal(t: Thrown) {
    Contains(MessageOf(t), "quota") || Contains(MessageOf(t), "429")
  }

  predicate IsTimeout(t: Thrown) {
    t.AIError? && t.code == Timeout
  }

  const TimeoutError: Thrown := AIError("Request timed out", Timeout)
  const QuotaError: Thrown := AIError("AI service quota exceeded. " + "Please try again later.", Quota)
  const RetriesExhausted: Thrown := AIError("Operation failed after retries", LlmError)
  const NotConfigured: Thrown := AIError("AI service not configured", ApiKeyMissing)
  const EmptyAnswerMessage: string := "AI returned empty response"
  const EmptyAnswer: Thrown := AIError(EmptyAnswerMessage, NoAnswer)
  const MalformedJsonMessage: string := "Failed to parse AI response"
  const MalformedJson: Thrown := AIError(MalformedJsonMessage, MalformedResponse)

  // ---------------------------------------------------------------------
  // executeWithRetry
  // ---------------------------------------------------------------------

  datatype Outcome<+T> = Success(value: T) | Failure(thrown: Thrown)

  /** What one run of the wrapper did: its result, how many times it invoked
      the operation, and the backoff delays (ms) it waited, in order. */
  datatype Run<+T> = Run(result: Outcome<T>, calls: nat, delays: seq<nat>)

  function Pow2(n: nat): (r: nat)
    ensures r >= 1
  {
    if n == 0 then 1 else 2 * Pow2(n - 1)
  }

  /** The wait after failed attempt `attempt`: 2^attempt seconds. */
  function BackoffDelay(attempt: nat): nat {
    Pow2(attempt) * 1000
  }

  /** `lastError || new AIError('Operation failed after retries', LLM_ERROR)`. */
  function FinalError(last: Option<Thrown>): Thrown {
    if last.Some? && last.value != NonError(false) then last.value else RetriesExhausted
  }

  /** A failure the loop neither converts to a quota error nor rethrows at once. */
  predicate Retryable<T>(o: Outcome<T>) {
    o.Failure? && !IsQuotaSignal(o.thrown) && !IsTimeout(o.thrown)
  }

  /** The loop from attempt `attempt` on, `outcomes[k]` being what attempt
      k + 1 yields and `last` the error of the previous attempt. */
  function RetryFrom<T>(outcomes: seq<Outcome<T>>, attempt: nat, last: Option<Thrown>): Run<T>
    requires |outcomes| == MaxRetries && 1 <= attempt <= MaxRetries + 1
    decreases MaxRetries + 1 - attempt
  {
    if attempt > MaxRetries then Run(Failure(FinalError(last)), MaxRetries, [])
    else match outcomes[attempt - 1]
      case Success(v) => Run(Success(v), attempt, [])
      case Failure(e) =>
        if IsQuotaSignal(e) then Run(Failure(QuotaError), attempt, [])
        else if IsTimeout(e) then Run(Failure(e), attempt, [])
        else
          var rest := RetryFrom(outcomes, attempt + 1, Some(e));
          var wait := if attempt < MaxRetries then [BackoffDelay(attempt)] else [];
          Run(rest.result, rest.calls, wait + rest.delays)
  }

  /** The whole run of `executeWithRetry` over the attempts' outcomes. */
  function Retry<T>(outcomes: seq<Outcome<T>>): Run<T>
    requires |outcomes| == MaxRetries
  {
    RetryFrom(outcomes, 1, None)
  }

  /** `executeWithRetry`: invokes the operation up to MaxRetries times. */
  method ExecuteWithRetry<T>(outcomes: seq<Outcome<T>>) returns (result: Outcome<T>, calls: nat, delays: seq<nat>)
    requires |outcomes| == MaxRetries
    ensures Run(result, calls, delays) == Retry(outcomes)
  {
    var lastError: Option<Thrown> := None;
    calls, delays := 0, [];
    var attempt := 1;
    while attempt <= MaxRetries
      invariant 1 <= attempt <= MaxRetries + 1
      invariant calls == attempt - 1
      invariant var rest := RetryFrom(outcomes, attempt, lastError);
        Retry(outcomes) == Run(rest.result, rest.calls, delays + rest.delays)
    {
      calls := calls + 1;
      var outcome := outcomes[attempt - 1];
      if outcome.Success? {
        return outcome, calls, delays;
      }
      var e := outcome.thrown;
      lastError := Some(e);
      if IsQuotaSignal(e) {
        return Failure(QuotaError), calls, delays;
      }
      if IsTimeout(e) {
        return Failure(e), calls, delays;
      }
      if attempt < MaxRetries {
        delays := delays + [BackoffDelay(attempt)];
      }
      attempt := attempt + 1;
    }
    result := Failure(FinalError(lastError));
  }

  /** The wrapper's behaviour on every input: it stops at the first attempt
      that succeeds, signals a quota problem or times out, and otherwise
      tries all MaxRetries attempts; every attempt before the last was a
      retryable failure; it waits 2000 ms and then 4000 ms between attempts
      and never after the last; a success is returned unchanged, a quota
      signal becomes AI_QUOTA (checked before the timeout), a timeout is
      rethrown as is, and after three retryable failures the last error is
      rethrown. */
  lemma RetryOutcome<T>(outcomes: seq<Outcome<T>>)
    requires |outcomes| == MaxRetries
    ensures 1 <= Retry(outcomes).calls <= MaxRetries
    ensures Retry(outcomes).delays == [2000, 4000][..Retry(outcomes).calls - 1]
    ensures forall j :: 0 <= j < Retry(outcomes).calls - 1 ==> Retryable(outcomes[j])
    ensures var last := outcomes[Retry(outcomes).calls - 1];
      && (last.Success? ==> Retry(outcomes).result == last)
      && (last.Failure? && IsQuotaSignal(last.thrown) ==> Retry(outcomes).result == Failure(QuotaError))
      && (last.Failure? && !IsQuotaSignal(last.thrown) && IsTimeout(last.thrown) ==> Retry(outcomes).result == last)
      && (Retryable(last) ==>
            Retry(outcomes).calls == MaxRetries && Retry(outcomes).result == Failure(FinalError(Some(last.thrown))))
  {
    assert BackoffDelay(1) == 2000 && BackoffDelay(2) == 4000;
    var r3 := RetryFrom(outcomes, 3, None);
    var r2 := RetryFrom(outcomes, 2, None);
    if Retryable(outcomes[0]) {
      assert Retry(outcomes).calls == RetryFrom(outcomes, 2, Some(outcomes[0].thrown)).calls;
      if Retryable(outcomes[1]) {
        assert RetryFrom(outcomes, 2, Some(outcomes[0].thrown)).calls == RetryFrom(outcomes, 3, Some(outcomes[1].thrown)).calls;
      }
    }
  }

  /** A quota-signalling first attempt ends the run at once: one invocation, no delay. */
  lemma QuotaStopsImmediately<T>(outcomes: seq<Outcome<T>>)
    requires |outcomes| == MaxRetries
    requires outcomes[0].Failure? && IsQuotaSignal(outcomes[0].thrown)
    ensures Retry(outcomes) == Run(Failure(QuotaError), 1, [])
  {
  }

  /** Two retryable failures and then a success: the success value after
      three invocations and the waits 2000 ms and 4000 ms. */
  lemma TwoFailuresThenSuccess<T>(e1: Thrown, e2: Thrown, v: T)
    requires Retryable<T>(Failure(e1)) && Retryable<T>(Failure(e2))
    ensures Retry([Failure(e1), Failure(e2), Success(v)]) == Run(Success(v), 3, [2000, 4000])
  {
    var outs := [Failure(e1), Failure(e2), Success(v)];
    assert RetryFrom(outs, 3, Some(e2)) == Run(Success(v), 3, []);
    assert RetryFrom(outs, 2, Some(e1)) == Run(Success(v), 3, [BackoffDelay(2)]);
    assert RetryFrom(outs, 1, None) == Run(Success(v), 3, [BackoffDelay(1), BackoffDelay(2)]);
    assert BackoffDelay(1) == 2000 && BackoffDelay(2) == 4000;
  }

  /** Three retryable failures: the third error itself is rethrown. */
  lemma ThreeFailuresRethrowLast<T>(e1: Thrown, e2: Thrown, e3: Thrown)
    requires Retryable<T>(Failure(e1)) && Retryable<T>(Failure(e2)) && Retryable<T>(Failure(e3))
    requires e3.AIError? || e3.PlainError?
    ensures Retry<T>([Failure(e1), Failure(e2), Failure(e3)]) == Run(Failure(e3), 3, [2000, 4000])
  {
    var outs: seq<Outcome<T>> := [Failure(e1), Failure(e2), Failure(e3)];
    assert RetryFrom(outs, 4, Some(e3)) == Run(Failure(e3), 3, []);
    assert RetryFrom(outs, 3, Some(e2)) == Run(Failure(e3), 3, []);
    assert RetryFrom(outs, 2, Some(e1)) == Run(Failure(e3), 3, [BackoffDelay(2)]);
    assert RetryFrom(outs, 1, None) == Run(Failure(e3), 3, [BackoffDelay(1), BackoffDelay(2)]);
    assert BackoffDelay(1) == 2000 && BackoffDelay(2) == 4000;
  }

  // ---------------------------------------------------------------------
  // parseJsonResponse
  // ---------------------------------------------------------------------

  const FenceJson: string := "```json"
  const Fence: string := "```"

  /** The text `parseJsonResponse` hands to `JSON.parse`: trimmed, one
      leading "```json" or "```" and one trailing "```" removed, trimmed again. */
  function StripFences(text: string): (r: string)
    ensures IsTrimmed(r)
  {
    Trim(DropClosingFence(DropOpeningFence(Trim(text))))
  }

  /** One leading "```json", or else one leading "```", removed. */
  function DropOpeningFence(t: string): string {
    if StartsWith(t, FenceJson) then t[7..] else if StartsWith(t, Fence) then t[3..] else t
  }

  /** One trailing "```" removed. */
  function DropClosingFence(a: string): string {
    if EndsWith(a, Fence) then a[..|a| - 3] else a
  }

  /** `parseJsonResponse` as a value: the decoded cleaned text, or
      AI_MALFORMED_RESPONSE when it does not decode. */
  function ParseJson<T>(text: string, decode: string -> Option<T>): (r: Result<T, Thrown>)
    ensures r.Ok? <==> decode(StripFences(text)).Some?
    ensures r.Ok? ==> r.value == decode(StripFences(text)).value
    ensures r.Err? ==> r.error == MalformedJson
  {
    match decode(StripFences(text))
    case Some(v) => Ok(v)
    case None => Err(MalformedJson)
  }

  /** `parseJsonResponse`, rebinding the cleaned text step by step. */
  method ParseJsonResponse<T>(text: string, decode: string -> Option<T>) returns (r: Result<T, Thrown>)
    ensures r == ParseJson(text, decode)
  {
    var cleaned := Trim(text);
    if StartsWith(cleaned, FenceJson) {
      cleaned := cleaned[7..];
    } else if StartsWith(cleaned, Fence) {
      cleaned := cleaned[3..];
    }
    assert cleaned == DropOpeningFence(Trim(text));
    if EndsWith(cleaned, Fence) {
      cleaned := cleaned[..|cleaned| - 3];
    }
    cleaned := Trim(cleaned);
    assert cleaned == StripFences(text);
    match decode(cleaned) {
      case Some(v) => r := Ok(v);
      case None => r := Err(MalformedJson);
    }
  }

  /** "```json" is "```" followed by "json". */
  lemma FenceJsonParts()
    ensures FenceJson == Fence + "json"
  {
  }

  lemma DropOpeningJson(inner: string)
    ensures DropOpeningFence(FenceJson + inner) == inner
  {
    assert (FenceJson + inner)[..7] == FenceJson;
    assert (FenceJson + inner)[7..] == inner;
  }

  lemma DropOpeningBare(inner: string)
    requires !StartsWith(inner, "json")
    ensures DropOpeningFence(Fence + inner) == inner
  {
    FenceJsonParts();
    StartsWithAppend(Fence, inner, "json");
    assert (Fence + inner)[..3] == Fence;
    assert (Fence + inner)[3..] == inner;
  }

  lemma DropClosing(x: string)
    ensures DropClosingFence(x + Fence) == x
  {
    assert (x + Fence)[|x + Fence| - 3..] == Fence;
    assert (x + Fence)[..|x + Fence| - 3] == x;
  }

  /** When p is followed by whitespace or a backtick, p + rest begins with
      "json" exactly when p does. */
  lemma {:induction false} JsonPrefixFromPayload(p: string, rest: string)
    requires rest != [] && (IsSpace(rest[0]) || rest[0] == '`')
    ensures StartsWith(p + rest, "json") <==> StartsWith(p, "json")
  {
    if |p| >= 4 {
      assert (p + rest)[..4] == p[..4];
    } else {
      assert (p + rest)[|p|] == rest[0];
      assert "json"[|p|] in "json";
    }
  }

  /** A trimmed payload p wrapped as fence + w1 + p + w2 + "```", with fence
      "```json" or "```" and w1, w2 whitespace (such as the newlines of a
      Markdown fenced block), is recovered exactly. With a bare fence and no
      whitespace after it, p must not begin with "json". */
  lemma StripFencedPayload(fence: string, w1: string, p: string, w2: string)
    requires fence == FenceJson || fence == Fence
    requires AllSpace(w1) && AllSpace(w2) && IsTrimmed(p)
    requires fence == Fence && w1 == [] ==> !StartsWith(p, "json")
    ensures StripFences(fence + w1 + p + w2 + Fence) == p
  {
    var body := w1 + p + w2;
    var s := fence + (body + Fence);
    assert s == fence + w1 + p + w2 + Fence;
    FencedIsTrimmed(fence, body);
    OpeningOfFenced(fence, w1, p, w2);
    DropClosing(body);
    TrimAround(w1, p, w2);
  }

  lemma FencedIsTrimmed(fence: string, body: string)
    requires fence == FenceJson || fence == Fence
    ensures Trim(fence + (body + Fence)) == fence + (body + Fence)
  {
    var s := fence + (body + Fence);
    assert s[0] == '`' && s[|s| - 1] == '`';
    TrimTrimmed(s);
  }

  /** The opening fence, and only it, is removed from a fenced payload. */
  lemma OpeningOfFenced(fence: string, w1: string, p: string, w2: string)
    requires fence == FenceJson || fence == Fence
    requires AllSpace(w1) && AllSpace(w2)
    requires fence == Fence && w1 == [] ==> !StartsWith(p, "json")
    ensures DropOpeningFence(fence + (w1 + p + w2 + Fence)) == w1 + p + w2 + Fence
  {
    var inner := w1 + p + w2 + Fence;
    if fence == FenceJson {
      DropOpeningJson(inner);
    } else {
      if w1 == [] {
        assert inner == p + (w2 + Fence);
        assert (w2 + Fence)[0] == (if w2 == [] then '`' else w2[0]);
        JsonPrefixFromPayload(p, w2 + Fence);
      } else {
        assert inner == [] + inner;
        JsonPrefixFromPayload([], inner);
      }
      DropOpeningBare(inner);
    }
  }

  /** Only one fence is removed at each end: a doubly fenced payload keeps
      its inner fences. */
  lemma OneFenceEachEnd(q: string)
    requires IsTrimmed(q)
    ensures StripFences(FenceJson + (Fence + q + Fence) + Fence) == Fence + q + Fence
  {
    var inner := Fence + q + Fence;
    assert inner[0] == '`' && inner[|inner| - 1] == '`';
    assert FenceJson + inner + Fence == FenceJson + [] + inner + [] + Fence;
    StripFencedPayload(FenceJson, [], inner, []);
  }

  /** A language tag other than the exact lower-case "json" is not removed:
      "```python\n{...}\n```" and "```JSON\n{...}\n```" keep their tag. */
  lemma OtherTagKept(tag: string, p: string)
    requires tag != [] && IsTrimmed(tag) && !StartsWith(tag, "json")
    requires p != [] && IsTrimmed(p)
    ensures StripFences(Fence + tag + "\n" + p + "\n" + Fence) == tag + "\n" + p
  {
    var body := tag + "\n" + p + "\n";
    assert Fence + tag + "\n" + p + "\n" + Fence == Fence + (body + Fence);
    FencedIsTrimmed(Fence, body);
    OpeningOfTagged(tag, p);
    DropClosing(body);
    TrimKeptTag(tag, p);
  }

  lemma OpeningOfTagged(tag: string, p: string)
    requires !StartsWith(tag, "json")
    ensures DropOpeningFence(Fence + ((tag + "\n" + p + "\n") + Fence)) == (tag + "\n" + p + "\n") + Fence
  {
    var inner := (tag + "\n" + p + "\n") + Fence;
    assert inner == tag + ("\n" + p + "\n" + Fence);
    JsonPrefixFromPayload(tag, "\n" + p + "\n" + Fence);
    DropOpeningBare(inner);
  }

  lemma TrimKeptTag(tag: string, p: string)
    requires tag != [] && IsTrimmed(tag) && p != [] && IsTrimmed(p)
    ensures Trim(tag + "\n" + p + "\n") == tag + "\n" + p
  {
    var kept := tag + "\n" + p;
    assert kept[0] == tag[0] && kept[|kept| - 1] == p[|p| - 1];
    assert AllSpace("\n");
    assert [] + kept + "\n" == tag + "\n" + p + "\n";
    TrimAround([], kept, "\n");
  }

  /** Wrapping a payload in a fenced block does not change what is decoded:
      the fenced text parses exactly as the bare payload does. */
  lemma FencedParsesAsBare<T>(fence: string, w1: string, p: string, w2: string, decode: string -> Option<T>)
    requires fence == FenceJson || fence == Fence
    requires AllSpace(w1) && AllSpace(w2) && IsTrimmed(p)
    requires !StartsWith(p, Fence) && !EndsWith(p, Fence)
    requires fence == Fence && w1 == [] ==> !StartsWith(p, "json")
    ensures ParseJson(fence + w1 + p + w2 + Fence, decode) == ParseJson(p, decode)
  {
    StripFencedPayload(fence, w1, p, w2);
    TrimTrimmed(p);
    FenceJsonParts();
    if StartsWith(p, FenceJson) {
      StartsWithLonger(p, Fence, "json");
    }
    assert DropOpeningFence(p) == p;
  }

  // ---------------------------------------------------------------------
  // Provider replies and the guarded, retried operations
  // ---------------------------------------------------------------------

  /** What one `generateContent` call yields: the response text, or a throw. */
  datatype ProviderReply = Reply(text: string) | ProviderThrew(thrown: Thrown)

  /** What one raced attempt yields: the provider's reply, or the timer firing first. */
  datatype Attempt = Answered(reply: ProviderReply) | TimerFired

  /** The roadmap document the decoder yields: JSON `null`, or an object whose
      `stages` is an array (Some) or missing / not an array (None). */
  datatype RoadmapPayload = NullDocument | RoadmapDocument(stages: Option<seq<RoadmapStage>>)

  const InvalidRoadmap: Thrown := AIError("Invalid roadmap structure from AI", MalformedResponse)

  /** Reading `stages` of a `null` document throws a TypeError. */
  const NullStagesRead: Thrown := PlainError("Cannot read properties of " + "null (reading 'stages')")

  /** The roadmap operation run inside the wrapper, for one attempt. */
  function RoadmapAttempt(a: Attempt, decode: string -> Option<RoadmapPayload>): (r: Outcome<seq<RoadmapStage>>)
    ensures r.Success? ==> r.value != []
  {
    match a
    case TimerFired => Failure(TimeoutError)
    case Answered(ProviderThrew(t)) => Failure(t)
    case Answered(Reply(text)) =>
      if Trim(text) == "" then Failure(EmptyAnswer)
      else match ParseJson(text, decode)
        case Err(t) => Failure(t)
        case Ok(doc) =>
          if doc.NullDocument? then Failure(NullStagesRead)
          else if doc.stages.None? || doc.stages.value == [] then Failure(InvalidRoadmap)
          else Success(doc.stages.value)
  }

  function RoadmapOutcomes(attempts: seq<Attempt>, decode: string -> Option<RoadmapPayload>): seq<Outcome<seq<RoadmapStage>>>
    requires |attempts| == MaxRetries
  {
    seq(MaxRetries, k requires 0 <= k < MaxRetries => RoadmapAttempt(attempts[k], decode))
  }

  /** `generateRoadmap`: fails with AI_API_KEY_MISSING, without invoking the
      provider, when the key is empty; otherwise runs the roadmap operation
      under the retry wrapper. */
  method GenerateRoadmap(apiKey: string, attempts: seq<Attempt>, decode: string -> Option<RoadmapPayload>)
    returns (run: Run<seq<RoadmapStage>>)
    requires |attempts| == MaxRetries
    ensures apiKey == "" ==> run == Run(Failure(NotConfigured), 0, [])
    ensures apiKey != "" ==> run == Retry(RoadmapOutcomes(attempts, decode))
    ensures run.result.Success? ==> run.result.value != []
  {
    if apiKey == "" {
      return Run(Failure(NotConfigured), 0, []);
    }
    var outcomes := RoadmapOutcomes(attempts, decode);
    var result, calls, delays := ExecuteWithRetry(outcomes);
    run := Run(result, calls, delays);
    RetryOutcome(outcomes);
  }

  /** A message with neither a 'q' nor a '4' is no quota signal. */
  lemma NoQuotaSignal(t: Thrown)
    requires 'q' !in MessageOf(t) && '4' !in MessageOf(t)
    ensures !IsQuotaSignal(t)
  {
    NotContainsWithoutChar(MessageOf(t), "quota");
    NotContainsWithoutChar(MessageOf(t), "429");
  }

  /** Errors raised inside the roadmap operation are retried like any other
      failure: an empty answer (AI_NO_ANSWER) and an undecodable one
      (AI_MALFORMED_RESPONSE) followed by a good document give its stages. */
  lemma EmptyAndMalformedAnswersRetried(first: string, second: string, third: string,
                                        decode: string -> Option<RoadmapPayload>, stages: seq<RoadmapStage>)
    requires Trim(first) == ""
    requires Trim(second) != "" && decode(StripFences(second)).None?
    requires Trim(third) != "" && decode(StripFences(third)) == Some(RoadmapDocument(Some(stages))) && stages != []
    ensures Retry(RoadmapOutcomes([Answered(Reply(first)), Answered(Reply(second)), Answered(Reply(third))], decode))
            == Run(Success(stages), 3, [2000, 4000])
  {
    RoadmapReplyOutcome(first, decode);
    RoadmapReplyOutcome(second, decode);
    RoadmapReplyOutcome(third, decode);
    RoadmapOutcomesOf([Answered(Reply(first)), Answered(Reply(second)), Answered(Reply(third))], decode,
                      [Failure(EmptyAnswer), Failure(MalformedJson), Success(stages)]);
    EmptyAnswerNotQuota();
    MalformedJsonNotQuota();
    TwoFailuresThenSuccess(EmptyAnswer, MalformedJson, stages);
  }

  lemma RoadmapOutcomesOf(attempts: seq<Attempt>, decode: string -> Option<RoadmapPayload>,
                          outs: seq<Outcome<seq<RoadmapStage>>>)
    requires |attempts| == MaxRetries && |outs| == MaxRetries
    requires RoadmapAttempt(attempts[0], decode) == outs[0]
    requires RoadmapAttempt(attempts[1], decode) == outs[1]
    requires RoadmapAttempt(attempts[2], decode) == outs[2]
    ensures RoadmapOutcomes(attempts, decode) == outs
  {
    var r := RoadmapOutcomes(attempts, decode);
    assert |r| == |outs|;
    forall k | 0 <= k < |r| ensures r[k] == outs[k] {
      assert r[k] == RoadmapAttempt(attempts[k], decode);
      assert k == 0 || k == 1 || k == 2;
    }
  }

  /** What one textual reply gives the roadmap operation: AI_NO_ANSWER when
      blank, AI_MALFORMED_RESPONSE when undecodable, the TypeError of reading
      `stages` off a JSON null, AI_INVALID_RESPONSE when the stages are absent
      or empty, and the stages otherwise. */
  lemma RoadmapReplyOutcome(text: string, decode: string -> Option<RoadmapPayload>)
    ensures Trim(text) == "" ==> RoadmapAttempt(Answered(Reply(text)), decode) == Failure(EmptyAnswer)
    ensures Trim(text) != "" && decode(StripFences(text)).None? ==>
      RoadmapAttempt(Answered(Reply(text)), decode) == Failure(MalformedJson)
    ensures Trim(text) != "" && decode(StripFences(text)) == Some(NullDocument) ==>
      RoadmapAttempt(Answered(Reply(text)), decode) == Failure(NullStagesRead)
    ensures Trim(text) != "" && decode(StripFences(text)).Some? && decode(StripFences(text)).value.RoadmapDocument? ==>
      var stages := decode(StripFences(text)).value.stages;
      RoadmapAttempt(Answered(Reply(text)), decode)
      == if stages.None? || stages.value == [] then Failure(InvalidRoadmap) else Success(stages.value)
  {
  }

  /** AI_NO_ANSWER's message does not mention a quota. */
  lemma EmptyAnswerNotQuota()
    ensures !IsQuotaSignal(EmptyAnswer)
  {
    EmptyAnswerMessageChars();
    NoQuotaSignal(EmptyAnswer);
  }

  /** AI_MALFORMED_RESPONSE's message does not mention a quota. */
  lemma MalformedJsonNotQuota()
    ensures !IsQuotaSignal(MalformedJson)
  {
    MalformedJsonMessageChars();
    NoQuotaSignal(MalformedJson);
  }

  lemma EmptyAnswerMessageChars()
    ensures 'q' !in EmptyAnswerMessage && '4' !in EmptyAnswerMessage
  {
  }

  lemma MalformedJsonMessageChars()
    ensures 'q' !in MalformedJsonMessage && '4' !in MalformedJsonMessage
  {
  }

  /** Options `generateRoadmap` accepts besides the goal and level. */
  datatype RoadmapOptions = RoadmapOptions(age: Option<int>, gender: Option<string>, language: Option<Language>)

  /** The `languageNames` record of `generateRoadmap`, `chat` and `generateDailyPlan`. */
  function ServiceLanguageName(l: Language): string {
    match l
    case En => "English"
    case Am => "Amharic"
    case Om => "Afan Oromo"
    case Tg => "Tigrigna"
    case So => "Somali"
  }

  /** The ternary of `generateQuiz`, `gradeQuiz` and `explainWithImage`. */
  function QuizLanguageName(l: Language): string {
    if l == Am then "Amharic" else if l == Om then "Afan Oromo" else "English"
  }

  /** The two language namings agree on en, am and om; the quiz naming
      falls back to English for Tigrigna and Somali. */
  lemma LanguageNamings(l: Language)
    ensures (l == En || l == Am || l == Om) ==> QuizLanguageName(l) == ServiceLanguageName(l)
    ensures (l == Tg || l == So) ==> QuizLanguageName(l) == "English" && ServiceLanguageName(l) != "English"
  {
  }

  /** `options.age` is truthy: present and not zero. */
  predicate AgeGiven(o: RoadmapOptions) {
    o.age.Some? && o.age.value != 0
  }

  predicate HasRoadmapContext(options: Option<RoadmapOptions>) {
    options.Some? && (AgeGiven(options.value) || Given(options.value.gender) || options.value.language.Some?)
  }

  const ContextHeader := "\n\nAdditional context:\n        "
  const ContextBreak := "\n        "
  const ContextCultural := "\n        - Consider cultural " + "context relevant to Ethiopian " + "youth."

  function RoadmapContextSegments(careerGoal: string, skillLevel: Option<string>, o: RoadmapOptions): seq<string> {
    [ Prompts.Roadmap(careerGoal, skillLevel),
      ContextHeader,
      if AgeGiven(o) then "- User age: " + IntToString(o.age.value) else "",
      ContextBreak,
      if Given(o.gender) then "- User gender: " + o.gender.value else "",
      ContextBreak,
      "- Respond in " + ServiceLanguageName(if o.language.Some? then o.language.value else En),
      ContextCultural ]
  }

  /** The prompt `generateRoadmap` sends. */
  function RoadmapRequestPrompt(careerGoal: string, skillLevel: Option<string>, options: Option<RoadmapOptions>): string {
    if HasRoadmapContext(options) then Concat(RoadmapContextSegments(careerGoal, skillLevel, options.value))
    else Prompts.Roadmap(careerGoal, skillLevel)
  }

  /** Without age, gender or language the roadmap template is sent as is;
      with any of them it is extended by a context block that names the
      response language (English by default), carries an age line exactly
      when a non-zero age is given and a gender line exactly when a
      non-empty gender is given. The absent direction is stated on the
      block after the template (the career goal may itself hold any text):
      with neither age nor gender the block has no user line at all, and a
      missing or zero age, or a missing or empty gender, leaves the prompt
      as if that option were not passed. */
  lemma RoadmapRequestPromptContent(careerGoal: string, skillLevel: Option<string>, options: Option<RoadmapOptions>)
    ensures !HasRoadmapContext(options) ==> RoadmapRequestPrompt(careerGoal, skillLevel, options) == Prompts.Roadmap(careerGoal, skillLevel)
    ensures StartsWith(RoadmapRequestPrompt(careerGoal, skillLevel, options), Prompts.Roadmap(careerGoal, skillLevel))
    ensures HasRoadmapContext(options) ==>
      Contains(RoadmapRequestPrompt(careerGoal, skillLevel, options),
               "- Respond in " + ServiceLanguageName(if options.value.language.Some? then options.value.language.value else En))
    ensures HasRoadmapContext(options) && AgeGiven(options.value) ==>
      Contains(RoadmapRequestPrompt(careerGoal, skillLevel, options), "- User age: " + IntToString(options.value.age.value))
    ensures HasRoadmapContext(options) && Given(options.value.gender) ==>
      Contains(RoadmapRequestPrompt(careerGoal, skillLevel, options), "- User gender: " + options.value.gender.value)
    ensures HasRoadmapContext(options) && !AgeGiven(options.value) && !Given(options.value.gender) ==>
      var block := RoadmapRequestPrompt(careerGoal, skillLevel, options)[|Prompts.Roadmap(careerGoal, skillLevel)|..];
      !Contains(block, "- User age: ") && !Contains(block, "- User gender: ")
    ensures options.Some? && !AgeGiven(options.value) ==>
      RoadmapRequestPrompt(careerGoal, skillLevel, options)
      == RoadmapRequestPrompt(careerGoal, skillLevel, Some(options.value.(age := None)))
    ensures options.Some? && !Given(options.value.gender) ==>
      RoadmapRequestPrompt(careerGoal, skillLevel, options)
      == RoadmapRequestPrompt(careerGoal, skillLevel, Some(options.value.(gender := None)))
  {
    var p := RoadmapRequestPrompt(careerGoal, skillLevel, options);
    if HasRoadmapContext(options) {
      var o := options.value;
      var segs := RoadmapContextSegments(careerGoal, skillLevel, o);
      ConcatEnds(segs);
      ConcatContains(segs, 2);
      ConcatContains(segs, 4);
      ConcatContains(segs, 6);
      if !AgeGiven(o) && !Given(o.gender) {
        RoadmapBlockLacksUserLines(careerGoal, skillLevel, o);
      }
    } else {
      assert p[..|p|] == p;
    }
    if options.Some? {
      RoadmapOptionsDropped(careerGoal, skillLevel, options.value);
    }
  }

  /** With neither age nor gender the context block after the template
      holds no capital `U`, so neither user line. */
  lemma RoadmapBlockLacksUserLines(careerGoal: string, skillLevel: Option<string>, o: RoadmapOptions)
    requires HasRoadmapContext(Some(o)) && !AgeGiven(o) && !Given(o.gender)
    ensures var block := RoadmapRequestPrompt(careerGoal, skillLevel, Some(o))[|Prompts.Roadmap(careerGoal, skillLevel)|..];
      !Contains(block, "- User age: ") && !Contains(block, "- User gender: ")
  {
    var segs := RoadmapContextSegments(careerGoal, skillLevel, o);
    var block := Concat(segs[1..]);
    assert (segs[0] + block)[|segs[0]|..] == block;
    ContextBlockLacksU(segs, o);
    NotContainsWithout(block, "- User age: ", 2);
    NotContainsWithout(block, "- User gender: ", 2);
  }

  lemma ContextBlockLacksU(segs: seq<string>, o: RoadmapOptions)
    requires |segs| == 8 && !AgeGiven(o) && !Given(o.gender)
    requires segs[1..] == RoadmapContextSegments([], None, o)[1..]
    ensures 'U' !in Concat(segs[1..])
  {
    var rest := segs[1..];
    ContextSegmentsLackU(segs, o);
    forall i | 0 <= i < |rest|
      ensures 'U' !in rest[i]
    {
      assert rest[i] == segs[i + 1];
    }
    ConcatLacks(rest, 'U');
  }

  /** A falsy age or gender contributes nothing to the prompt. */
  lemma RoadmapOptionsDropped(careerGoal: string, skillLevel: Option<string>, o: RoadmapOptions)
    ensures !AgeGiven(o) ==>
      RoadmapRequestPrompt(careerGoal, skillLevel, Some(o)) == RoadmapRequestPrompt(careerGoal, skillLevel, Some(o.(age := None)))
    ensures !Given(o.gender) ==>
      RoadmapRequestPrompt(careerGoal, skillLevel, Some(o)) == RoadmapRequestPrompt(careerGoal, skillLevel, Some(o.(gender := None)))
  {
    if !AgeGiven(o) {
      assert RoadmapContextSegments(careerGoal, skillLevel, o) == RoadmapContextSegments(careerGoal, skillLevel, o.(age := None));
    }
    if !Given(o.gender) {
      assert RoadmapContextSegments(careerGoal, skillLevel, o) == RoadmapContextSegments(careerGoal, skillLevel, o.(gender := None));
    }
  }

  lemma ContextSegmentsLackU(segs: seq<string>, o: RoadmapOptions)
    requires |segs| == 8 && !AgeGiven(o) && !Given(o.gender)
    requires segs[1..] == RoadmapContextSegments([], None, o)[1..]
    ensures forall i :: 1 <= i < |segs| ==> 'U' !in segs[i]
  {
    ServiceLanguageNameLacksU(if o.language.Some? then o.language.value else En);
    ContextLiteralsLackU();
    assert segs[1] == RoadmapContextSegments([], None, o)[1];
    assert segs[2] == "" && segs[4] == "";
    assert segs[3] == segs[5] == ContextBreak;
    assert segs[7] == ContextCultural;
  }

  lemma ContextLiteralsLackU()
    ensures 'U' !in ContextHeader && 'U' !in ContextBreak && 'U' !in ContextCultural
  {
  }

  lemma ServiceLanguageNameLacksU(l: Language)
    ensures 'U' !in "- Respond in " + ServiceLanguageName(l)
  {
  }

  /** The attempt `chat` runs inside the wrapper. */
  function ChatAttempt(a: Attempt): (r: Outcome<string>)
    ensures r.Success? ==> a == Answered(Reply(r.value)) && Trim(r.value) != ""
  {
    match a
    case TimerFired => Failure(TimeoutError)
    case Answered(ProviderThrew(t)) => Failure(t)
    case Answered(Reply(text)) => if Trim(text) == "" then Failure(EmptyAnswer) else Success(text)
  }

  function ChatOutcomes(attempts: seq<Attempt>): seq<Outcome<string>>
    requires |attempts| == MaxRetries
  {
    seq(MaxRetries, k requires 0 <= k < MaxRetries => ChatAttempt(attempts[k]))
  }

  const EmptyMessage: Thrown := AIError("Message cannot be empty", NoAnswer)

  /** `chat`: the key guard, then the empty-message guard, both before any
      provider call; then the chat operation under the retry wrapper. */
  method Chat(apiKey: string, message: string, attempts: seq<Attempt>) returns (run: Run<string>)
    requires |attempts| == MaxRetries
    ensures apiKey == "" ==> run == Run(Failure(NotConfigured), 0, [])
    ensures apiKey != "" && Trim(message) == "" ==> run == Run(Failure(EmptyMessage), 0, [])
    ensures apiKey != "" && Trim(message) != "" ==> run == Retry(ChatOutcomes(attempts))
  {
    if apiKey == "" {
      return Run(Failure(NotConfigured), 0, []);
    }
    if Trim(message) == "" {
      return Run(Failure(EmptyMessage), 0, []);
    }
    var result, calls, delays := ExecuteWithRetry(ChatOutcomes(attempts));
    run := Run(result, calls, delays);
  }

  /** A successful chat returns, verbatim, the non-blank text of the
      provider reply to the last invocation. */
  lemma ChatReplyVerbatim(attempts: seq<Attempt>)
    requires |attempts| == MaxRetries
    ensures var run := Retry(ChatOutcomes(attempts));
      run.result.Success? ==>
        attempts[run.calls - 1] == Answered(Reply(run.result.value)) && Trim(run.result.value) != ""
  {
    RetryOutcome(ChatOutcomes(attempts));
  }

  /** The text `chat` sends to the provider. */
  function ChatPrompt(message: string, language: Language): string {
    Concat(ChatPromptSegments(message, language))
  }

  function ChatPromptSegments(message: string, language: Language): seq<string> {
    [ "You are QineGuide AI Tutor, " + "a friendly and knowledgeable " + "AI mentor helping Ethiopian " + "youth learn and grow in " + "their careers. \n      ",
      "You MUST respond in " + ServiceLanguageName(language) + ".",
      "\n      Be encouraging, patient, " + "and provide practical advice " + "relevant to the Ethiopian " + "context.\n      Keep responses " + "concise but helpful.",
      "\n\nUser: " + message ]
  }

  /** The chat prompt demands the user's language and ends with the message. */
  lemma ChatPromptContent(message: string, language: Language)
    ensures Contains(ChatPrompt(message, language), "You MUST respond in " + ServiceLanguageName(language) + ".")
    ensures EndsWith(ChatPrompt(message, language), "\n\nUser: " + message)
  {
    var segs := ChatPromptSegments(message, language);
    ConcatContains(segs, 1);
    ConcatEnds(segs);
  }

  // ---------------------------------------------------------------------
  // Single-call operations (no retry wrapper, no timer)
  // ---------------------------------------------------------------------

  /** The shared shape of `explainConcept`, `generateOpportunities`,
      `evaluateSkills`, `generateQuiz`, `gradeQuiz` and `explainWithImage`:
      one provider call, decode, and any failure replaced by a plain Error
      carrying the operation's own message. */
  function CallOnce<J>(reply: ProviderReply, decode: string -> Option<J>, failure: string): (r: Result<J, Thrown>)
    ensures r.Err? ==> r.error == PlainError(failure)
    ensures r.Ok? <==> reply.Reply? && decode(StripFences(reply.text)).Some?
    ensures r.Ok? ==> r.value == decode(StripFences(reply.text)).value
  {
    match reply
    case ProviderThrew(_) => Err(PlainError(failure))
    case Reply(text) =>
      match ParseJson(text, decode)
      case Ok(v) => Ok(v)
      case Err(_) => Err(PlainError(failure))
  }

  /** `explainConcept`: the raw reply text, even when blank. */
  function ExplainConcept(reply: ProviderReply): (r: Result<string, Thrown>)
    ensures r.Ok? <==> reply.Reply?
    ensures r.Ok? ==> r.value == reply.text
    ensures r.Err? ==> r.error == PlainError("Failed to generate explanation")
  {
    match reply
    case Reply(text) => Ok(text)
    case ProviderThrew(_) => Err(PlainError("Failed to generate explanation"))
  }

  /** The opportunities document: JSON `null`, or an object whose
      `opportunities` field may be missing. */
  datatype OpportunitiesPayload = NullOpportunities | OpportunitiesDocument(opportunities: Option<seq<OpportunityDraft>>)

  /** `generateOpportunities`: the decoded `opportunities` field, returned
      even when missing; reading it from `null` fails. */
  function GenerateOpportunities(reply: ProviderReply, decode: string -> Option<OpportunitiesPayload>)
    : (r: Result<Option<seq<OpportunityDraft>>, Thrown>)
    ensures r.Err? ==> r.error == PlainError("Failed to generate opportunities")
    ensures r.Ok? <==> (reply.Reply? && decode(StripFences(reply.text)).Some?
                        && decode(StripFences(reply.text)).value.OpportunitiesDocument?)
  {
    var c := CallOnce(reply, decode, "Failed to generate opportunities");
    if c.Err? then Err(c.error)
    else if c.value.NullOpportunities? then Err(PlainError("Failed to generate opportunities"))
    else Ok(c.value.opportunities)
  }

  // ---------------------------------------------------------------------
  // detectLanguage
  // ---------------------------------------------------------------------

  /** The reply text, trimmed and lower-cased. */
  function DetectedWord(text: string): string {
    LowerAscii(Trim(text))
  }

  /** `detectLanguage`: only en, am or om, English by default and on error. */
  function DetectLanguage(reply: ProviderReply): (l: Language)
    ensures l == En || l == Am || l == Om
    ensures reply.ProviderThrew? ==> l == En
    ensures reply.Reply? ==> (l == Am <==> DetectedWord(reply.text) in {"am", "amharic"})
    ensures reply.Reply? ==> (l == Om <==> DetectedWord(reply.text) in {"om", "oromo", "afan oromo"})
  {
    match reply
    case ProviderThrew(_) => En
    case Reply(text) =>
      var detected := DetectedWord(text);
      if detected == "am" || detected == "amharic" then Am
      else if detected == "om" || detected == "oromo" || detected == "afan oromo" then Om
      else En
  }

  // ---------------------------------------------------------------------
  // gradeQuiz answer pairing
  // ---------------------------------------------------------------------

  datatype QuizQuestion = QuizQuestion(
    id: string,
    question: string,
    kind: string,
    options: Option<seq<string>>,
    correctAnswer: string,
    explanation: string,
    difficulty: Option<string>,
    category: Option<string>)

  datatype AnswerPair = AnswerPair(question: string, correctAnswer: string, userAnswer: string, kind: string)

  const NoAnswerText: string := "No answer provided"

  /** `answers[q.id] || 'No answer provided'`. */
  function UserAnswer(answers: map<string, string>, id: string): string {
    if id in answers && answers[id] != "" then answers[id] else NoAnswerText
  }

  /** The question list `gradeQuiz` embeds in its prompt. */
  function PairAnswers(questions: seq<QuizQuestion>, answers: map<string, string>): (r: seq<AnswerPair>)
    ensures |r| == |questions|
    ensures forall i :: 0 <= i < |r| ==>
      r[i] == AnswerPair(questions[i].question, questions[i].correctAnswer,
                         UserAnswer(answers, questions[i].id), questions[i].kind)
  {
    if questions == [] then []
    else
      var q := questions[0];
      [AnswerPair(q.question, q.correctAnswer, UserAnswer(answers, q.id), q.kind)] + PairAnswers(questions[1..], answers)
  }

  /** An answered question carries the user's answer; an unanswered or
      blank one the placeholder. */
  lemma PairedAnswerSource(questions: seq<QuizQuestion>, answers: map<string, string>, i: nat)
    requires i < |questions|
    ensures var a := PairAnswers(questions, answers)[i].userAnswer;
      (questions[i].id in answers && answers[questions[i].id] != "" ==> a == answers[questions[i].id])
      && (questions[i].id !in answers || answers[questions[i].id] == "" ==> a == NoAnswerText)
  {
  }

  // ---------------------------------------------------------------------
  // generateDailyPlan and the minute normaliser
  // ---------------------------------------------------------------------

  const DailyMinutes: int := 60

  datatype RawTask = RawTask(
    id: string, title: string, description: string, estimatedTime: int,
    kind: string, priority: string, resources: seq<string>, completed: Option<bool>)

  datatype DailyTask = DailyTask(
    id: string, title: string, description: string, estimatedTime: int,
    kind: string, priority: string, resources: seq<string>, completed: bool)

  datatype PlanPayload = NullPlan | PlanDocument(tasks: Option<seq<RawTask>>, quizQuestions: Option<seq<QuizQuestion>>)

  datatype DailyPlan = DailyPlan(tasks: seq<DailyTask>, quizQuestions: Option<seq<QuizQuestion>>, estimatedMinutesPerDay: int)

  function Sum(s: seq<int>): int {
    if s == [] then 0 else Sum(s[..|s| - 1]) + s[|s| - 1]
  }

  /** `Math.round(n / d)` for d > 0: the nearest integer, halves rounded up. */
  function RoundHalfUp(n: int, d: int): (r: int)
    requires d > 0
    ensures 2 * d * r <= 2 * n + d < 2 * d * r + 2 * d
  {
    (2 * n + d) / (2 * d)
  }

  function Estimates(tasks: seq<DailyTask>): (r: seq<int>)
    ensures |r| == |tasks|
    ensures forall i :: 0 <= i < |tasks| ==> r[i] == tasks[i].estimatedTime
  {
    seq(|tasks|, i requires 0 <= i < |tasks| => tasks[i].estimatedTime)
  }

  function Rescaled(est: seq<int>, total: int): (r: seq<int>)
    requires total > 0
    ensures |r| == |est|
  {
    seq(|est|, i requires 0 <= i < |est| => RoundHalfUp(est[i] * DailyMinutes, total))
  }

  /** The estimates after normalisation: untouched when they already sum to
      60 or sum to nothing positive; otherwise each rescaled by 60 / total
      and rounded, and the rounding residual added to the last one. */
  function NormalizedEstimates(est: seq<int>): (r: seq<int>)
    ensures |r| == |est|
  {
    var total := Sum(est);
    if total == DailyMinutes || total <= 0 then est
    else Balanced(Rescaled(est, total))
  }

  /** The rounding residual `60 - sum` added to the last estimate, when there is one. */
  function Balanced(scaled: seq<int>): (r: seq<int>)
    ensures |r| == |scaled|
  {
    var adjusted := Sum(scaled);
    if adjusted != DailyMinutes && |scaled| > 0 then scaled[|scaled| - 1 := scaled[|scaled| - 1] + (DailyMinutes - adjusted)]
    else scaled
  }

  lemma {:induction false} SumUpdateLast(s: seq<int>, x: int)
    requires |s| > 0
    ensures Sum(s[|s| - 1 := x]) == Sum(s) - s[|s| - 1] + x
  {
    assert s[|s| - 1 := x][..|s| - 1] == s[..|s| - 1];
  }

  lemma {:induction false} SumPositiveNonEmpty(s: seq<int>)
    requires Sum(s) != 0
    ensures |s| > 0
  {
  }

  /** Whenever the raw total is positive the normalised estimates sum to exactly 60. */
  lemma NormalizedSumIsTarget(est: seq<int>)
    requires Sum(est) > 0
    ensures Sum(NormalizedEstimates(est)) == DailyMinutes
  {
    var total := Sum(est);
    if total != DailyMinutes {
      var scaled := Rescaled(est, total);
      if Sum(scaled) != DailyMinutes {
        SumPositiveNonEmpty(est);
        SumUpdateLast(scaled, scaled[|scaled| - 1] + (DailyMinutes - Sum(scaled)));
      }
    }
  }

  /** A raw total of 60, or one that is not positive, leaves the estimates untouched. */
  lemma NormalizedKeepsSettled(est: seq<int>)
    requires Sum(est) == DailyMinutes || Sum(est) <= 0
    ensures NormalizedEstimates(est) == est
  {
  }

  /** Every estimate but the last is est·60/total rounded half-up; with
      non-negative raw estimates these are never negative. */
  lemma NormalizedRounding(est: seq<int>, i: nat)
    requires Sum(est) > 0 && Sum(est) != DailyMinutes && i + 1 < |est|
    ensures NormalizedEstimates(est)[i] == RoundHalfUp(est[i] * DailyMinutes, Sum(est))
    ensures est[i] >= 0 ==> NormalizedEstimates(est)[i] >= 0
  {
    var total := Sum(est);
    var scaled := Rescaled(est, total);
    assert NormalizedEstimates(est)[i] == scaled[i];
    if est[i] >= 0 {
      RoundHalfUpNonNegative(est[i] * DailyMinutes, total);
    }
  }

  lemma RoundHalfUpNonNegative(n: int, d: int)
    requires n >= 0 && d > 0
    ensures RoundHalfUp(n, d) >= 0
  {
    assert 2 * n + d >= 0 && 2 * d > 0;
  }

  lemma {:induction false} SumSnoc(s: seq<int>, x: int)
    ensures Sum(s + [x]) == Sum(s) + x
  {
    assert (s + [x])[..|s|] == s;
  }

  lemma {:induction false} SumConstant(k: nat, v: int)
    ensures Sum(seq(k, i => v)) == k * v
  {
    if k > 0 {
      assert seq(k, i => v) == seq(k - 1, i => v) + [v];
      SumConstant(k - 1, v);
      SumSnoc(seq(k - 1, i => v), v);
    }
  }

  /** Non-negativity is not guaranteed: seven 1-minute tasks and one
      0-minute task are rescaled to 9 each and 0, and the residual -3 is
      added to the last task. */
  lemma NormalizedLastCanBeNegative()
    ensures NormalizedEstimates([1, 1, 1, 1, 1, 1, 1, 0]) == [9, 9, 9, 9, 9, 9, 9, -3]
  {
    var est := [1, 1, 1, 1, 1, 1, 1, 0];
    var ones := seq(7, i => 1);
    assert est == ones + [0];
    SumSnoc(ones, 0);
    SumConstant(7, 1);
    assert RoundHalfUp(1 * DailyMinutes, 7) == 9;
    assert RoundHalfUp(0 * DailyMinutes, 7) == 0;
    var scaled := Rescaled(est, 7);
    var nines := seq(7, i => 9);
    assert scaled == nines + [0];
    SumSnoc(nines, 0);
    SumConstant(7, 9);
  }

  /** Two task lists that differ at most in their minute estimates. */
  predicate SameButEstimates(a: seq<DailyTask>, b: seq<DailyTask>) {
    |a| == |b| && forall i :: 0 <= i < |a| ==> a[i] == b[i].(estimatedTime := a[i].estimatedTime)
  }

  /** `tasks.reduce((sum, t) => sum + t.estimatedTime, 0)`. */
  method TotalMinutes(tasks: array<DailyTask>) returns (total: int)
    ensures total == Sum(Estimates(tasks[..]))
  {
    ghost var est := Estimates(tasks[..]);
    total := 0;
    var i := 0;
    while i < tasks.Length
      invariant 0 <= i <= tasks.Length
      invariant total == Sum(est[..i])
    {
      assert est[..i + 1][..i] == est[..i];
      total := total + tasks[i].estimatedTime;
      i := i + 1;
    }
    assert est[..i] == est;
  }

  /** The forEach that rescales each task and the `+=` on the last task,
      done in place on the task array. */
  method NormalizeDailyMinutes(tasks: array<DailyTask>)
    modifies tasks
    ensures Estimates(tasks[..]) == NormalizedEstimates(Estimates(old(tasks[..])))
    ensures SameButEstimates(tasks[..], old(tasks[..]))
  {
    var total := TotalMinutes(tasks);
    if total != DailyMinutes && total > 0 {
      ghost var original := tasks[..];
      RescaleEach(tasks, total);
      ghost var rescaled := tasks[..];
      BalanceLast(tasks);
      SameButEstimatesTrans(tasks[..], rescaled, original);
    }
  }

  lemma SameButEstimatesTrans(a: seq<DailyTask>, b: seq<DailyTask>, c: seq<DailyTask>)
    requires SameButEstimates(a, b) && SameButEstimates(b, c)
    ensures SameButEstimates(a, c)
  {
  }

  /** The check of the rescaled total and the `+=` on the last task. */
  method BalanceLast(tasks: array<DailyTask>)
    modifies tasks
    ensures Estimates(tasks[..]) == Balanced(Estimates(old(tasks[..])))
    ensures SameButEstimates(tasks[..], old(tasks[..]))
  {
    var n := tasks.Length;
    var adjusted := TotalMinutes(tasks);
    if adjusted != DailyMinutes && n > 0 {
      tasks[n - 1] := tasks[n - 1].(estimatedTime := tasks[n - 1].estimatedTime + (DailyMinutes - adjusted));
      ghost var est := Estimates(old(tasks[..]));
      ghost var want := est[n - 1 := est[n - 1] + (DailyMinutes - adjusted)];
      assert forall j :: 0 <= j < n ==> Estimates(tasks[..])[j] == want[j];
    }
  }

  /** The forEach: every estimate becomes `Math.round(estimate * 60 / total)`. */
  method RescaleEach(tasks: array<DailyTask>, total: int)
    requires total > 0
    modifies tasks
    ensures Estimates(tasks[..]) == Rescaled(Estimates(old(tasks[..])), total)
    ensures SameButEstimates(tasks[..], old(tasks[..]))
  {
    ghost var scaled := Rescaled(Estimates(tasks[..]), total);
    var i := 0;
    while i < tasks.Length
      invariant 0 <= i <= tasks.Length
      invariant forall j :: 0 <= j < i ==> tasks[j] == old(tasks[j]).(estimatedTime := scaled[j])
      invariant forall j :: i <= j < tasks.Length ==> tasks[j] == old(tasks[j])
    {
      tasks[i] := tasks[i].(estimatedTime := RoundHalfUp(tasks[i].estimatedTime * DailyMinutes, total));
      i := i + 1;
    }
  }

  /** `task.completed ?? false`, the other fields kept. */
  function WithCompletedDefault(t: RawTask): DailyTask {
    DailyTask(t.id, t.title, t.description, t.estimatedTime, t.kind, t.priority, t.resources,
              if t.completed.Some? then t.completed.value else false)
  }

  const DailyPlanFailure: Thrown := PlainError("Failed to generate daily plan")

  /** `generateDailyPlan`: decode the reply, default `completed`, normalise
      the minutes, and report 60 minutes per day; any failure becomes the
      operation's plain error. */
  method GenerateDailyPlan(reply: ProviderReply, decode: string -> Option<PlanPayload>) returns (r: Result<DailyPlan, Thrown>)
    ensures r.Err? ==> r.error == DailyPlanFailure
    ensures r.Ok? <==> (reply.Reply? && decode(StripFences(reply.text)).Some?
                        && decode(StripFences(reply.text)).value.PlanDocument?
                        && decode(StripFences(reply.text)).value.tasks.Some?)
    ensures r.Ok? ==>
      var doc := decode(StripFences(reply.text)).value;
      var defaulted := Defaulted(doc.tasks.value);
      && r.value.estimatedMinutesPerDay == DailyMinutes
      && r.value.quizQuestions == doc.quizQuestions
      && SameButEstimates(r.value.tasks, defaulted)
      && Estimates(r.value.tasks) == NormalizedEstimates(Estimates(defaulted))
  {
    if reply.ProviderThrew? {
      return Err(DailyPlanFailure);
    }
    var parsed := ParseJsonResponse(reply.text, decode);
    if parsed.Err? || parsed.value.NullPlan? || parsed.value.tasks.None? {
      return Err(DailyPlanFailure);
    }
    var plan := PlanOf(parsed.value.tasks.value, parsed.value.quizQuestions);
    r := Ok(plan);
  }

  /** The plan built from decoded tasks: `completed` defaulted, the minutes
      normalised, 60 minutes per day. */
  method PlanOf(raw: seq<RawTask>, quizQuestions: Option<seq<QuizQuestion>>) returns (plan: DailyPlan)
    ensures plan.estimatedMinutesPerDay == DailyMinutes && plan.quizQuestions == quizQuestions
    ensures SameButEstimates(plan.tasks, Defaulted(raw))
    ensures Estimates(plan.tasks) == NormalizedEstimates(Estimates(Defaulted(raw)))
  {
    var tasks := new DailyTask[|raw|](i requires 0 <= i < |raw| => WithCompletedDefault(raw[i]));
    assert tasks[..] == Defaulted(raw);
    NormalizeDailyMinutes(tasks);
    plan := DailyPlan(tasks[..], quizQuestions, DailyMinutes);
  }

  /** The tasks with `completed` defaulted. */
  function Defaulted(raw: seq<RawTask>): (r: seq<DailyTask>)
    ensures |r| == |raw|
    ensures forall i :: 0 <= i < |raw| ==> r[i] == WithCompletedDefault(raw[i])
  {
    seq(|raw|, i requires 0 <= i < |raw| => WithCompletedDefault(raw[i]))
  }
}
