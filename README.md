# QineGuide core, modelled in Dafny

QineGuide is a career-guidance tutor. An Express backend asks a language
model for roadmaps, explanations, opportunities, daily plans and chat
replies, and stores profiles, roadmaps, opportunities and chat histories in
a document store. A React client shows them in five languages (English,
Amharic, Afan Oromo, Tigrinya, Somali), with speech input and spoken
answers.

This project models the logic of that system that can be stated and proved:

- `Gemini` (gemini.dfy): the generation service.
  - The retry wrapper is a loop over the outcomes of its attempts. It records the backoff delays it waits.
  - The fenced-JSON extractor is modelled. JSON decoding is an opaque partial decoder.
  - Also covered: the key and empty-message guards of `generateRoadmap` and `chat`, the daily-plan minute normaliser (an in-place array algorithm), language detection, the two language namings, and the answer pairing of `gradeQuiz`.
- `Prompts` (prompts.dfy): the four prompt templates, as strings built from their segments.
- `Firestore` (firestore.dfy): the document store.
  - `FirestoreService` is a class over a map-valued database: the profile, roadmap, opportunity, chat-history and career-goal collections of each user.
  - Alongside it are the pure updates the methods perform: profile upsert, history append and career-goal merge.
- `Tutor` (tutor.dfy): the tutor endpoints.
  - `explain` and `chat` write the question and then the answer into the store.
  - `getHistory` sorts a history's messages in place by insertion sort over an array.
  - The status branches are modelled.
- `Validation` (validation.dfy): the request schemas as field rules. Their issues are collected in the order the schema library reports them, and `validate` turns them into the 400 response.
- `Errors` (errors.dfy): `AppError`, the error-to-status dispatch and the 404 handler.
- `Config` (config.dfy): environment defaults (with `parseInt`), CORS origin parsing, and the start-up configuration check.
- `ExternalLink` (external_link.dfy): the link sanitiser and the decision whether to render.
- `HistorySidebar` (history_sidebar.dfy): title truncation, relative dates and message normalisation.
- `LanguageContext` (language.dfy): the language provider as a class over browser storage, plus the translation lookup with key fallback.
- `SpeechRecognition` (speech.dfy): transcript aggregation, plus the listening state machine as a class.
- `TextToSpeech` (tts.dfy): the language-support rule, the unsupported-language notice, and default-voice selection. The speaking state is a class.
- `Domain` (domain.dfy): the record shapes of backend/src/types/index.ts.
- `Common` (common.dfy): Option/Result, JavaScript whitespace and `trim`, and string helpers.

Some external things are parameters of the model and are not modelled:

- the model provider and the store SDK;
- fresh ids;
- clock readings;
- date parsing and formatting;
- the JSON decoder;
- the URL check;
- the translation table.

Three behaviours of the code are easy to misread, and the model keeps them as written:

- the daily-plan normaliser can produce a negative last estimate (`Gemini.NormalizedLastCanBeNegative`);
- after three failures the retry wrapper rethrows the last error itself, not a generic error;
- only two backoff waits occur (2 s, then 4 s).

## Model

| member | source | states |
|---|---|---|
| Domain.ParseLanguageCode | backend/src/types/index.ts:4 | Each of the five language codes reads back as its own language. |
| Gemini.ExecuteWithRetry | backend/src/services/gemini.ts:50-92 | The loop's result, its number of invocations and its waits are exactly the run `Retry` defines over the attempts' outcomes. |
| Gemini.RetryOutcome | backend/src/services/gemini.ts:36-91 | Between 1 and 3 invocations. Waits are the prefix of [2000, 4000], none after the last attempt. Every attempt before the last was a retryable failure. A success is returned unchanged. A quota signal becomes AI_QUOTA, checked before the timeout. A timeout is rethrown as is. Three retryable failures rethrow the last error. |
| Gemini.QuotaStopsImmediately | backend/src/services/gemini.ts:72-75 | A first attempt whose message mentions "quota" or "429" ends the run at once with AI_QUOTA: one invocation, no wait. |
| Gemini.TwoFailuresThenSuccess | backend/src/services/gemini.ts:56-87 | Two retryable failures and then a success: the success value after 3 invocations and the waits 2000 and 4000 ms. |
| Gemini.ThreeFailuresRethrowLast | backend/src/services/gemini.ts:82-91 | Three retryable failures: the third error itself is thrown, after exactly two waits. |
| Gemini.StripFences | backend/src/services/gemini.ts:97-108 | The cleaned text handed to the decoder is trimmed. |
| Gemini.ParseJson | backend/src/services/gemini.ts:97-116 | Succeeds exactly when the decoder accepts the cleaned text, and with the decoded value. Otherwise the error is AI_MALFORMED_RESPONSE. |
| Gemini.ParseJsonResponse | backend/src/services/gemini.ts:97-116 | The step-by-step rebinding of the cleaned text gives the result of `ParseJson`. |
| Gemini.StripFencedPayload | backend/src/services/gemini.ts:99-108 | "```json" or "```", optional whitespace, a trimmed payload, optional whitespace and "```" are cleaned to exactly the payload. |
| Gemini.FencedParsesAsBare | backend/src/services/gemini.ts:97-116 | A payload that neither starts nor ends with "```", wrapped in a fenced block, decodes to the same result as the bare payload. |
| Gemini.OneFenceEachEnd | backend/src/services/gemini.ts:99-108 | Only one leading and one trailing fence are removed: a doubly fenced payload keeps its inner fences. |
| Gemini.OtherTagKept | backend/src/services/gemini.ts:100-104 | A fence tag other than the exact lower-case "json" is left in the cleaned text. |
| Gemini.GenerateRoadmap | backend/src/services/gemini.ts:121-173 | An empty API key fails with AI_API_KEY_MISSING before any invocation. Otherwise the run is the retry run over the per-attempt roadmap outcomes. A success always holds a non-empty stage list. |
| Gemini.RoadmapAttempt | backend/src/services/gemini.ts:155-171 | A successful attempt yields a non-empty list of stages. |
| Gemini.RoadmapReplyOutcome | backend/src/services/gemini.ts:155-171 | A blank reply is AI_NO_ANSWER. An undecodable one is AI_MALFORMED_RESPONSE. A `null` document is a TypeError. A document without a non-empty stage list is AI_MALFORMED_RESPONSE. Otherwise the stages are returned. |
| Gemini.EmptyAndMalformedAnswersRetried | backend/src/services/gemini.ts:159-169 | An empty answer and then a malformed one are both retried: the third attempt's stages are returned after 3 invocations and both waits. |
| Gemini.EmptyAnswerNotQuota | backend/src/services/gemini.ts:159-161 | The AI_NO_ANSWER error raised inside the operation is not mistaken for a quota signal. |
| Gemini.MalformedJsonNotQuota | backend/src/services/gemini.ts:112-115 | The AI_MALFORMED_RESPONSE error is not mistaken for a quota signal. |
| Gemini.RoadmapRequestPromptContent | backend/src/services/gemini.ts:132-150 | Without age, gender or language the roadmap template is sent unchanged. Otherwise it starts with the template and names the response language (English by default). It carries "- User age: N" when a non-zero age is given and "- User gender: g" when a non-empty gender is given. A missing or zero age, or a missing or empty gender, gives the same prompt as leaving that option out. With neither age nor gender, the block after the template has neither user line. |
| Gemini.RoadmapBlockLacksUserLines | backend/src/services/gemini.ts:144-150 | With neither age nor gender, the context block after the template contains neither "- User age: " nor "- User gender: ". |
| Gemini.RoadmapOptionsDropped | backend/src/services/gemini.ts:144-147 | A falsy age (missing or 0) or a falsy gender (missing or "") contributes nothing: the prompt equals the one without that option. |
| Gemini.Chat | backend/src/services/gemini.ts:249-285 | An empty key gives AI_API_KEY_MISSING, and a blank message gives AI_NO_ANSWER. Both happen before any invocation. Otherwise the run is the retry run over the chat attempts. |
| Gemini.ChatAttempt | backend/src/services/gemini.ts:275-283 | A successful attempt is a reply whose text is not blank, returned as is. |
| Gemini.ChatReplyVerbatim | backend/src/services/gemini.ts:275-283 | A successful chat returns the text of the attempt that ended the run, and that text is not blank. |
| Gemini.ChatPromptContent | backend/src/services/gemini.ts:261-275 | The chat prompt demands the user's language by name and ends with the user's message. |
| Gemini.CallOnce | backend/src/services/gemini.ts:201-220 | A single provider call succeeds exactly when the reply decodes, and with the decoded value. Otherwise it fails with the operation's own message. |
| Gemini.ExplainConcept | backend/src/services/gemini.ts:178-196 | The raw reply text, even when blank. A provider failure becomes "Failed to generate explanation". |
| Gemini.GenerateOpportunities | backend/src/services/gemini.ts:201-220 | Succeeds exactly when the reply decodes to a non-null document, with its `opportunities` field (possibly missing). Otherwise "Failed to generate opportunities". |
| Gemini.DetectLanguage | backend/src/services/gemini.ts:303-320 | Only en, am or om. English on a provider error. am exactly for "am"/"amharic", om exactly for "om"/"oromo"/"afan oromo", after trimming and lower-casing. |
| Gemini.LanguageNamings | backend/src/services/gemini.ts:464 | The quiz naming agrees with the service naming on en, am and om. It calls tg and so "English", where the service naming does not. |
| Gemini.PairAnswers | backend/src/services/gemini.ts:466-471 | One pair per question, in order, carrying that question's text and correct answer. |
| Gemini.PairedAnswerSource | backend/src/services/gemini.ts:466-471 | An answered question carries the user's answer. An unanswered one, or one answered with "", carries "No answer provided". |
| Gemini.NormalizeDailyMinutes | backend/src/services/gemini.ts:391-403 | In place, the estimates become `NormalizedEstimates` of the old ones. Every other field and the length are unchanged. |
| Gemini.TotalMinutes | backend/src/services/gemini.ts:392 | The reduce is the sum of the estimates. |
| Gemini.RescaleEach | backend/src/services/gemini.ts:394-397 | Every estimate becomes its rescaled value, and nothing else changes. |
| Gemini.BalanceLast | backend/src/services/gemini.ts:399-402 | The residual 60 minus the new sum is added to the last estimate, and nothing else changes. |
| Gemini.RoundHalfUp | backend/src/services/gemini.ts:396 | The result is the integer nearest to n/d, with halves rounded up. |
| Gemini.NormalizedSumIsTarget | backend/src/services/gemini.ts:391-403 | Whenever the raw total is positive, the normalised estimates sum to exactly 60. |
| Gemini.NormalizedKeepsSettled | backend/src/services/gemini.ts:392-393 | A raw total of 60, or one that is not positive, leaves the estimates untouched. |
| Gemini.NormalizedRounding | backend/src/services/gemini.ts:394-397 | Every estimate but the last is estimate·60/total rounded half-up, and it is non-negative when the raw one is. |
| Gemini.NormalizedLastCanBeNegative | backend/src/services/gemini.ts:394-402 | [1,1,1,1,1,1,1,0] normalises to [9,9,9,9,9,9,9,-3]: the last estimate is not guaranteed non-negative. |
| Gemini.GenerateDailyPlan | backend/src/services/gemini.ts:325-414 | The plan exists exactly when the reply decodes to a task list. Its tasks are the decoded ones with `completed` defaulted to false and the estimates normalised. `estimatedMinutesPerDay` is 60. Otherwise the fixed failure message. |
| Gemini.PlanOf | backend/src/services/gemini.ts:386-408 | The returned plan holds the decoded tasks with `completed` defaulted, their estimates normalised to `NormalizedEstimates`, the decoded quiz questions, and 60 minutes per day. |
| Gemini.Defaulted | backend/src/services/gemini.ts:386-389 | Same length and order. Each task keeps its fields and has a missing `completed` set to false. |
| Prompts.RoadmapContent | backend/src/config/prompts.ts:5-40 | The roadmap prompt names the goal. It states the given skill level, or else assumes a complete beginner. It ends with the JSON-shape instruction. |
| Prompts.RoadmapShapeNamesStages | backend/src/config/prompts.ts:28-39 | The roadmap shape instruction names the top-level field "stages". |
| Prompts.ExplainContent | backend/src/config/prompts.ts:43-73 | The explanation prompt names the target language, carries its script instruction and names the concept. |
| Prompts.ExplainContextLine | backend/src/config/prompts.ts:61-62 | A non-empty context adds the line "Additional context: <context>" and nothing else. Without one the prompt is the one without context. |
| Prompts.ExplainWithoutContext | backend/src/config/prompts.ts:61-62 | A given context makes the prompt longer than the one without it by exactly the length of its context line. |
| Prompts.ExplainLanguageNames | backend/src/config/prompts.ts:44-48 | am, om and en are named "Amharic (አማርኛ)", "Afan Oromo (Oromiffa)" and "English". |
| Prompts.OpportunitiesContent | backend/src/config/prompts.ts:76-109 | The opportunities prompt names the goal. It has the skill-level line only when one is given, and "Focus on: <category>" or the default mix line. It ends with the JSON-shape instruction. |
| Prompts.OpportunitiesShapeNamesField | backend/src/config/prompts.ts:96-108 | The opportunities shape instruction names the field "opportunities". |
| Prompts.SkillsEvalContent | backend/src/config/prompts.ts:112-136 | The skills prompt lists the skills joined by ", " and names the goal. The Experience line appears only when experience is given. It ends with the JSON-shape instruction. |
| Prompts.SkillsShapeNamesFields | backend/src/config/prompts.ts:130-135 | The skills shape instruction names "assessment", "skillGaps" and "recommendations". |
| Firestore.PutThenLookup | backend/src/services/firestore.ts:105-114 | A saved document reads back, and no other document of any user changes. |
| Firestore.RemoveThenLookup | backend/src/services/firestore.ts:155-165 | A deleted document is gone, and every other document is unchanged. |
| Firestore.InsertDescending | backend/src/services/firestore.ts:128 | Inserting into a list ordered newest first keeps it ordered and holds exactly the old elements plus the new one. |
| Firestore.NewestFirst | backend/src/services/firestore.ts:122-132 | A collection listed by a key, descending: ordered, of the collection's size, and holding every document and only documents. |
| Firestore.LimitKeepsLargest | backend/src/services/firestore.ts:238-239 | `limit(n)` on a descending listing keeps the n largest: any element left out has a key at most that of the last one kept. |
| Firestore.ProfileCreatedWithDefaults | backend/src/services/firestore.ts:52-63 | A new profile takes each supplied field's value: name, email, language, goals and completed stages. For a field that is not supplied: name "", email "", language "en", no goals, no completed stages, and createdAt = updatedAt = now. |
| Firestore.ProfileUpdateKeepsUnsupplied | backend/src/services/firestore.ts:43-50 | Updating a stored profile sets each supplied field (name, email, language, goals, completed stages) to its new value and stamps updatedAt. Every field not supplied, createdAt included, is kept. |
| Firestore.UpsertIdempotent | backend/src/services/firestore.ts:29-65 | Upserting the same fields twice at the same time gives the same profile as once. |
| Firestore.LanguageUpdateOnlyLanguage | backend/src/services/firestore.ts:310-313 | Changing the language of a stored profile changes only the language and updatedAt. |
| Firestore.AppendKeepsHistory | backend/src/services/firestore.ts:190-196 | Appending keeps the earlier messages in order, puts the new message last, and refreshes updatedAt. Id, owner and createdAt are unchanged. |
| Firestore.FirstMessageCreatesHistory | backend/src/services/firestore.ts:197-206 | A first message creates the history under the given id, owned by the user, holding just that message. |
| Firestore.CareerGoalMerge | backend/src/services/firestore.ts:320-340 | Merging writes the supplied fields, keeps a stored language the input does not supply, and rewrites createdAt with the save time even when a record existed. |
| Firestore.SavedMessageWritesOne | backend/src/services/firestore.ts:172-209 | Saving a message writes the appended history under its id and leaves every other history and collection as it was. |
| Firestore.SavedMessageConsistent | backend/src/services/firestore.ts:172-209 | Saving a message keeps every document stored under its own id and owner. |
| Firestore.FirestoreService.constructor | backend/src/services/firestore.ts:23 | The store starts empty and consistent. |
| Firestore.FirestoreService.UpsertUserProfile | backend/src/services/firestore.ts:29-65 | Only that user's profile changes, to the upserted one, which is returned. |
| Firestore.FirestoreService.GetUserProfile | backend/src/services/firestore.ts:70-83 | null exactly when no profile is stored, else the stored profile with its uid. |
| Firestore.FirestoreService.SaveRoadmap | backend/src/services/firestore.ts:90-117 | A new roadmap under the fresh id, with createdAt = updatedAt = now. Nothing else changes, and it is returned. |
| Firestore.FirestoreService.GetUserRoadmaps | backend/src/services/firestore.ts:122-132 | All of the user's roadmaps and only those, newest createdAt first. |
| Firestore.FirestoreService.GetRoadmap | backend/src/services/firestore.ts:137-150 | null exactly when the roadmap is absent. |
| Firestore.FirestoreService.DeleteRoadmap | backend/src/services/firestore.ts:155-165 | Removes that roadmap of that user only. |
| Firestore.FirestoreService.SaveChatMessage | backend/src/services/firestore.ts:172-209 | The message gets the fresh id and the time and keeps role, content and language. It is appended to the history, or creates it, and is returned. |
| Firestore.FirestoreService.GetChatHistory | backend/src/services/firestore.ts:214-227 | null exactly when the history is absent. |
| Firestore.FirestoreService.GetAllChatHistories | backend/src/services/firestore.ts:232-243 | At most 20 of the user's histories, most recently updated first. Any history left out is no newer than the last one listed. |
| Firestore.FirestoreService.SaveOpportunity | backend/src/services/firestore.ts:250-273 | A new opportunity under the fresh id with the time. Nothing else changes. |
| Firestore.FirestoreService.GetUserOpportunities | backend/src/services/firestore.ts:278-288 | All of the user's opportunities and only those, newest first. |
| Firestore.FirestoreService.DeleteOpportunity | backend/src/services/firestore.ts:293-303 | Removes that opportunity of that user only. |
| Firestore.FirestoreService.UpdateLanguagePreference | backend/src/services/firestore.ts:310-313 | An upsert carrying only the language. |
| Firestore.FirestoreService.SaveCareerGoalData | backend/src/services/firestore.ts:320-340 | A merging write of the user's career-goal record. Nothing else changes. |
| Firestore.FirestoreService.GetCareerGoalData | backend/src/services/firestore.ts:345-371 | null exactly when no record is stored. |
| Tutor.Failed | backend/src/controllers/tutorController.ts:52-58 | A failure response carries success false, its status and its error text. |
| Tutor.ExchangeAppendsPair | backend/src/controllers/tutorController.ts:79-102 | An exchange appends the question and then the answer to the one history, and touches nothing else. |
| Tutor.ExchangeConsistent | backend/src/controllers/tutorController.ts:79-102 | An exchange keeps the store consistent. |
| Tutor.Explain | backend/src/controllers/tutorController.ts:12-59 | A generation failure is a 500 with nothing written. A signed-in user's explanation is saved as a fresh history holding the question and then the answer. An anonymous user's is not saved. |
| Tutor.ChatHistoryId | backend/src/controllers/tutorController.ts:80 | The supplied history id when there is one, else the fresh one. |
| Tutor.Chat | backend/src/controllers/tutorController.ts:64-119 | A generation failure is a 500 with nothing written. A signed-in user's exchange is saved, question then answer, to the supplied or fresh history, and its id is returned. An anonymous user's is not saved and carries no id. |
| Tutor.SortByTimestamp | backend/src/controllers/tutorController.ts:141-145 | In place, the messages end up oldest first and are a permutation of the old ones. The sort is stable: the messages with any one timestamp keep their stored order. |
| Tutor.InsertIntoSorted | backend/src/controllers/tutorController.ts:141-145 | One insertion step extends the sorted prefix by one element, keeps the contents, and keeps the order of equal-timestamp messages. |
| Tutor.GetHistory | backend/src/controllers/tutorController.ts:124-164 | No user gives 401 without a read. A failed read gives 500. With a history id: 200 with its messages sorted oldest first, a stable permutation of the stored ones, or none when the history is absent. Without one: 200 with the user's 20 most recently updated histories (all of them when there are fewer), newest first. Any history left out is no newer than the 20th listed. |
| Validation.Validate | backend/src/middleware/validation.ts:53-75 | The request proceeds exactly when parsing finds no issue. Otherwise it is a 400 with one detail per issue, in order, whose field is the issue's path joined by ".". |
| Validation.Accepts | backend/src/middleware/validation.ts:53-75 | A body passes exactly when it is an object and every field of the schema meets its rule. |
| Validation.RoadmapRules | backend/src/middleware/validation.ts:6-10 | Accepted exactly when careerGoal has 2..200 characters, currentSkillLevel is absent or a string, and preferredLanguage is absent or one of am, om, en. |
| Validation.ExplainRules | backend/src/middleware/validation.ts:12-16 | Accepted exactly when concept has 2..500 characters, language is am, om or en, and context is absent or has at most 500. |
| Validation.OpportunitiesRules | backend/src/middleware/validation.ts:18-22 | Accepted exactly when careerGoal has 2..200 characters, and skillLevel and category are each absent or a string. |
| Validation.SkillsEvalRules | backend/src/middleware/validation.ts:24-28 | Accepted exactly when careerGoal has 2..200 characters, currentSkills holds 1..20 strings, and experience is absent or has at most 1000. |
| Validation.SaveProfileRules | backend/src/middleware/validation.ts:30-34 | Accepted exactly when name is absent or has 1..100 characters, languagePreference is absent or am/om/en, and careerGoals is absent or holds at most 10 strings. |
| Validation.ChatRules | backend/src/middleware/validation.ts:36-40 | Accepted exactly when message has 1..2000 characters, language is absent or am/om/en, and historyId is absent or a string. |
| Validation.SaveOpportunityRules | backend/src/middleware/validation.ts:42-49 | Accepted exactly when title has 1..200 characters, provider 1..100, url passes the URL check, category and skillLevel 1..50, and description is absent or at most 500. |
| Validation.TigrinyaAndSomaliRejected | backend/src/middleware/validation.ts:9-38 | A tg or so language value makes every schema that has a language field reject the body. |
| Validation.SkillItemDetail | backend/src/middleware/validation.ts:61-64 | A non-string skill at index i is reported with the field "currentSkills.i". |
| Validation.IssueReported | backend/src/middleware/validation.ts:61-64 | Every parse issue appears among the details as its joined path and its kind. |
| Validation.ElementIssueAt | backend/src/middleware/validation.ts:26 | A non-string array item raises a type issue at its own index. |
| Errors.NewAppError | backend/src/middleware/errorHandler.ts:9-13 | An AppError carries its message and status, and is always operational. |
| Errors.HandleError | backend/src/middleware/errorHandler.ts:28-82 | Success is always false. An AppError answers with its own status and message. Any other error gets 400, 401 or 500. A message is attached only as the error's own. |
| Errors.AppErrorKeepsStatus | backend/src/middleware/errorHandler.ts:42-48 | An AppError answers with its own status and message in every environment, whatever its name. |
| Errors.ValidationErrorIs400 | backend/src/middleware/errorHandler.ts:51-57 | A ValidationError is a 400 carrying the error's message. |
| Errors.TokenErrors | backend/src/middleware/errorHandler.ts:60-74 | JsonWebTokenError is 401 "Invalid token", TokenExpiredError is 401 "Token expired", and the two texts differ. |
| Errors.OtherErrorsAre500 | backend/src/middleware/errorHandler.ts:77-81 | Any other error is a 500 "Internal server error", whose message is exposed exactly in development. |
| Errors.NotFound | backend/src/middleware/errorHandler.ts:85-90 | A 404 with success false whose error is "Route " + the URL + " not found". |
| Config.ParseIntOfRendering | backend/src/config/index.ts:35-50 | `parseInt` reads back the decimal rendering of any natural number, whatever non-digit text follows. |
| Config.ParseDigitsFirst | backend/src/config/index.ts:35-50 | Text that starts with a digit is read as the value of its leading digit run. |
| Config.ParseIntNaN | backend/src/config/index.ts:35-50 | Text with no digit after an optional sign is NaN. |
| Config.EnvOr | backend/src/config/index.ts:35-50 | The variable's value when it is set and non-empty, else the fallback. |
| Config.ParseOrigins | backend/src/config/index.ts:26-32 | Unset or empty gives "*". A value without a comma is returned untrimmed. A value with a comma becomes a list. |
| Config.OriginsAreTrimmedPieces | backend/src/config/index.ts:28-30 | A comma-separated value becomes one trimmed origin per piece, in order, one more than the number of commas. |
| Config.LoadSettings | backend/src/config/index.ts:34-52 | nodeEnv defaults to "development". The key and project id are "" exactly when the variable is unset or empty. |
| Config.EmptyEnvironmentDefaults | backend/src/config/index.ts:34-52 | With nothing set: port 8080, "development", no key, no project, rate window 900000 ms and 100 requests. |
| Config.DefaultNumbers | backend/src/config/index.ts:35-50 | The default texts "8080", "900000" and "100" parse to 8080, 900000 and 100. |
| Config.ValidateConfig | backend/src/config/index.ts:55-73 | Throws exactly when at least one error was collected, with "Configuration errors:" followed by the errors joined by newlines. |
| Config.ConfigErrorsMeaning | backend/src/config/index.ts:56-68 | Each message is present exactly when its setting is missing. The service-account path or the base64 value alone satisfies that check. The key comes first. No error exactly when all three are set. |
| Config.CompleteEnvironmentPasses | backend/src/config/index.ts:34-73 | An environment with key, project id and service account passes the start-up check. |
| ExternalLink.FixUrl | frontend/src/components/ExternalLink.tsx:17-39 | null, undefined and "" give "". |
| ExternalLink.BlankGivesNothing | frontend/src/components/ExternalLink.tsx:20-56 | Whitespace alone gives "", so nothing is rendered. |
| ExternalLink.SchemeKept | frontend/src/components/ExternalLink.tsx:20-38 | A link that starts with http:// or https:// in any case is only trimmed. |
| ExternalLink.SlashesBeforeSchemeDropped | frontend/src/components/ExternalLink.tsx:23 | Any run of slashes directly before a scheme is removed. |
| ExternalLink.NetworkPathGetsHttps | frontend/src/components/ExternalLink.tsx:26-28 | A network-path reference "//host" becomes "https://host". |
| ExternalLink.BareTextCompleted | frontend/src/components/ExternalLink.tsx:31-36 | Scheme-less text gets "https://" exactly when it contains a dot, and is otherwise only trimmed. |
| ExternalLink.FixedLinkShape | frontend/src/components/ExternalLink.tsx:17-39 | Every result is "", starts with an http(s) scheme, or contains no dot. |
| ExternalLink.FixUrlIdempotent | frontend/src/components/ExternalLink.tsx:17-39 | Repairing a repaired link changes nothing. |
| ExternalLink.Render | frontend/src/components/ExternalLink.tsx:47-73 | Nothing is rendered exactly when the repaired link is "". Otherwise an anchor to it that opens in a new tab. |
| HistorySidebar.TruncateText | frontend/src/components/ChatHistorySidebar.tsx:120-123 | A text that fits is returned unchanged. Otherwise the result is its first maxLength characters followed by "...". |
| HistorySidebar.TruncateBounds | frontend/src/components/ChatHistorySidebar.tsx:120-123 | A shortened title is at most maxLength + 3 long and begins like the original. |
| HistorySidebar.StampSeconds | frontend/src/components/ChatHistorySidebar.tsx:94-97 | `_seconds` when non-zero, else `seconds` when non-zero, else none. |
| HistorySidebar.JustNowCases | frontend/src/components/ChatHistorySidebar.tsx:89-108 | No value, "", a timestamp object without seconds and an unparsable text all read "Just now". |
| HistorySidebar.ObjectDate | frontend/src/components/ChatHistorySidebar.tsx:94-97 | A timestamp object dates from `_seconds`, else `seconds`, times 1000. |
| HistorySidebar.DateBuckets | frontend/src/components/ChatHistorySidebar.tsx:110-117 | Under a day is "Today", the next day "Yesterday", up to 7 days "n days ago", and then the locale date. A future date reads as a negative number of days ago. |
| HistorySidebar.FloorDays | frontend/src/components/ChatHistorySidebar.tsx:110 | The whole days elapsed are the floor of the difference over the day length. |
| HistorySidebar.NormalizeMessages | frontend/src/components/ChatHistorySidebar.tsx:56-75 | The conversion succeeds exactly when every object timestamp is a valid date, and then keeps the length. |
| HistorySidebar.NormalizeKeepsMessages | frontend/src/components/ChatHistorySidebar.tsx:56-75 | Each message stays in place with its role and content. A given id is kept, and a missing one becomes "msg-<index>". Text timestamps pass through, and an object without seconds becomes now. |
| HistorySidebar.DefaultIdsDistinct | frontend/src/components/ChatHistorySidebar.tsx:61 | Messages without an id get pairwise different ids. |
| LanguageContext.LanguageName | frontend/src/context/LanguageContext.tsx:5-11 | Every language has a non-empty display name. |
| LanguageContext.LanguageNamesDistinct | frontend/src/context/LanguageContext.tsx:5-11 | The five display names are pairwise different. |
| LanguageContext.InitialLanguage | frontend/src/context/LanguageContext.tsx:627-630 | The saved value when it is non-empty, unchecked, else "en". |
| LanguageContext.Translate | frontend/src/context/LanguageContext.tsx:637-639 | The current language's entry when present and non-empty, else the key itself. A code with no table throws. |
| LanguageContext.LanguageProvider.constructor | frontend/src/context/LanguageContext.tsx:627-630 | A provider starts in the initial language read from storage. |
| LanguageContext.LanguageProvider.SetLanguage | frontend/src/context/LanguageContext.tsx:632-635 | The current language becomes the code, and the same code is saved under "qineguide-language". |
| LanguageContext.SwitchSurvivesReload | frontend/src/context/LanguageContext.tsx:627-635 | After a switch, a provider mounted on the storage it left starts in the language switched to, and its lookups do not throw. |
| LanguageContext.FreshProviderIsEnglish | frontend/src/context/LanguageContext.tsx:627-639 | With nothing saved the provider starts in English, and a key without an entry translates to itself. |
| LanguageContext.UseLanguage | frontend/src/context/LanguageContext.tsx:614-620 | Outside a provider it throws. Inside, it returns the provider's value. |
| SpeechRecognition.RecognitionLang | frontend/src/hooks/useSpeechRecognition.ts:80-85 | en, am and om map to en-US, am-ET and om-ET. Any other code passes through. |
| SpeechRecognition.Aggregate | frontend/src/hooks/useSpeechRecognition.ts:87-101 | The transcript is the concatenated final results if non-empty, else the concatenated interim ones. |
| SpeechRecognition.TextsSplit | frontend/src/hooks/useSpeechRecognition.ts:91-98 | Both texts of a concatenation of result lists are the concatenations of their texts: order is kept. |
| SpeechRecognition.TextsPartition | frontend/src/hooks/useSpeechRecognition.ts:91-98 | Each transcript lands in exactly one of the two texts. |
| SpeechRecognition.FinalWins | frontend/src/hooks/useSpeechRecognition.ts:100 | A non-empty final result anywhere hides the interim text. |
| SpeechRecognition.NoFinalNoText | frontend/src/hooks/useSpeechRecognition.ts:100 | Without final results the final text is empty, so the interim text is shown. |
| SpeechRecognition.Recognizer.constructor | frontend/src/hooks/useSpeechRecognition.ts:70-77 | An engine exists exactly when recognition is supported, with the mapped language, not listening. |
| SpeechRecognition.Recognizer.StartListening | frontend/src/hooks/useSpeechRecognition.ts:124-135 | Only with an engine that is not listening: clears transcript and error, then starts the engine. Otherwise nothing changes. |
| SpeechRecognition.Recognizer.StopListening | frontend/src/hooks/useSpeechRecognition.ts:137-141 | Stops the engine only while listening. |
| SpeechRecognition.Recognizer.OnStart | frontend/src/hooks/useSpeechRecognition.ts:112-115 | Listening, with the error cleared. |
| SpeechRecognition.Recognizer.OnError | frontend/src/hooks/useSpeechRecognition.ts:103-106 | The error is recorded and listening stops. |
| SpeechRecognition.Recognizer.OnEnd | frontend/src/hooks/useSpeechRecognition.ts:108-110 | Listening stops, and nothing else changes. |
| SpeechRecognition.Recognizer.OnResult | frontend/src/hooks/useSpeechRecognition.ts:87-101 | The transcript becomes the aggregate of the results. |
| SpeechRecognition.Recognizer.Unmount | frontend/src/hooks/useSpeechRecognition.ts:119-121 | Unmounting aborts the engine. |
| SpeechRecognition.StartTwiceSendsOnce | frontend/src/hooks/useSpeechRecognition.ts:124-135 | Start, started, start again sends one start request. |
| TextToSpeech.IsLanguageSupported | frontend/src/hooks/useTextToSpeech.ts:26-28 | False exactly for am and om. |
| TextToSpeech.UnsupportedMessage | frontend/src/hooks/useTextToSpeech.ts:31-39 | A notice exactly for unsupported languages, naming Amharic for am and Afan Oromo for om. |
| TextToSpeech.NoticesDiffer | frontend/src/hooks/useTextToSpeech.ts:31-39 | The two notices differ. |
| TextToSpeech.FindVoice | frontend/src/hooks/useTextToSpeech.ts:51-52 | The first voice whose lang starts with the prefix, or none when no voice does. |
| TextToSpeech.DefaultVoice | frontend/src/hooks/useTextToSpeech.ts:50-53 | None exactly when there are no voices. Otherwise one of the offered voices. |
| TextToSpeech.DefaultVoiceOrder | frontend/src/hooks/useTextToSpeech.ts:50-53 | The first voice in the page language wins. Failing that, the first English voice. Failing that, the first voice. |
| TextToSpeech.Speaker.constructor | frontend/src/hooks/useTextToSpeech.ts:18-23 | Not speaking, no voices, no voice chosen, nothing sent. |
| TextToSpeech.Speaker.LoadVoices | frontend/src/hooks/useTextToSpeech.ts:45-57 | The offered voices are kept. The default voice is chosen when there is one. |
| TextToSpeech.Speaker.Speak | frontend/src/hooks/useTextToSpeech.ts:104-128 | Nothing without synthesis, without text or in am/om. Otherwise cancel, then speak in en-US at rate 0.9, pitch 1, volume 1 with the current voice. |
| TextToSpeech.Speaker.Stop | frontend/src/hooks/useTextToSpeech.ts:130-134 | With synthesis: cancel and not speaking. Otherwise nothing changes. |
| TextToSpeech.Speaker.OnVisibilityChange | frontend/src/hooks/useTextToSpeech.ts:83-88 | A hidden page cancels speech and clears the speaking flag. |
| TextToSpeech.Speaker.OnBeforeUnload | frontend/src/hooks/useTextToSpeech.ts:90-92 | Leaving the page cancels speech. |
| TextToSpeech.Speaker.Unmount | frontend/src/hooks/useTextToSpeech.ts:69-101 | With synthesis both cleanups cancel, and speaking stops. Without it nothing changes. |
| TextToSpeech.Speaker.OnUtteranceStart | frontend/src/hooks/useTextToSpeech.ts:122 | Speaking. |
| TextToSpeech.Speaker.OnUtteranceEnd | frontend/src/hooks/useTextToSpeech.ts:123-124 | Not speaking. |
| TextToSpeech.Speaker.SetVoice | frontend/src/hooks/useTextToSpeech.ts:136-138 | The chosen voice becomes current. |
| TextToSpeech.SpeakOnAmharicPage | frontend/src/hooks/useTextToSpeech.ts:106 | On an Amharic page `speak` sends nothing. |

## Left out

- Timer race and sleeping (`Promise.race`, `setTimeout`). A timeout is an attempt outcome, and a backoff is a recorded delay in milliseconds.
- The model-provider SDK and the document-store SDK. Both are foreign calls: the provider is represented by its replies or throws, and the store is a map. Concurrent read-modify-write interleavings of `saveChatMessage` are not modelled because they are concurrency.
- JSON decoding behind `JSON.parse`. It is an opaque partial decoder passed in as a function.
- Fresh ids and clock readings (uuid, `new Date()`, server timestamps) are parameters. A stored message and its history's `updatedAt` share one clock reading.
- Gemini.RoundHalfUp: floating-point rounding is not modelled. `Math.round(estimate * (60 / total))` is taken as the exact rational estimate·60/total rounded half-up, so float deviations at exact halves are not captured. Decoded estimates are also taken to be whole minutes (`estimatedTime` is an integer). A fractional estimate such as 7.5, which the reduce and `Math.round` accept, is not modelled.
- The text-to-speech rate 0.9 is a real number, not a float.
- evaluateSkills, generateText, generateQuiz and explainWithImage (backend/src/services/gemini.ts) are single provider calls without logic of their own beyond what `CallOnce` and `QuizLanguageName` state, so they are not modelled separately.
- Logger calls everywhere are I/O and are not modelled.
- Tutor.Explain, Tutor.Chat: a store write that fails after generation succeeded is not modelled. Such a failure would also give 500, with a partial write.
- Firestore.NewestFirst, Firestore.FirestoreService.GetAllChatHistories: the store's tie-break is not stated. Documents with equal keys come back ordered by descending document id, because an ordered query implicitly orders by document id in the direction of its last ordering. The model leaves their relative order open. So it also leaves open which of several histories sharing the 20th `updatedAt` `limit(20)` keeps.
- Validation: the schema library's message texts are not modelled; each issue is its path and kind. Other parts are parameters or simplifications:
  - the `url()` check is a parameter;
  - lengths are sequence lengths, not UTF-16 code units;
  - the `next(error)` path for errors other than schema errors cannot be reached by parsing, so it is not modelled.
- Date parsing, `toISOString` and `toLocaleDateString` are parameters. An invalid date (RangeError in `toISOString`) is modelled as the normalisation yielding None.
- The translation strings (frontend/src/context/LanguageContext.tsx:19-610) are not modelled: the table is a parameter.
- Web Speech recognition and speech synthesis engines are not modelled: the requests the hooks send them are recorded. Also left out:
  - the try/catch around `recognition.start` (an engine throw);
  - the re-registration of `onvoiceschanged`.
- React rendering and state plumbing are not modelled, nor localStorage as a real store (it is a map).
- Tutor.SortByTimestamp: the model sorts the messages as if their timestamps were numbers (Dates). The stored messages come back from the store as its timestamp objects, not Dates. On those, the comparator's `new Date(<timestamp object>).getTime()` is most likely NaN, a NaN comparison counts as equal, and the stable sort then leaves the stored (append) order. The model does not capture that outcome. It coincides with the modelled one only when the stored order is already oldest first.
- SpeechRecognition.Recognizer, TextToSpeech.Speaker: the page language is a constant of each object. A language change re-runs the hooks' effects: recognition gets a new engine in the new locale, and speech picks a new default voice. This re-run is not modelled.
- Config.ParseInt: the value is an exact unbounded integer. JavaScript numbers lose precision above 2^53, and this is not modelled.
- HistorySidebar.TruncateText: lengths count sequence elements, not UTF-16 code units, so titles with characters outside the Basic Multilingual Plane are cut differently.
- LanguageContext.Translate: a saved language code outside the five languages, and outside the names of `Object.prototype` members, makes the lookup throw in the client. The model returns None for that case and does not model the crash that follows. A code naming an `Object.prototype` member ("constructor", "toString", "__proto__") finds an object instead. For that code the client returns the key, or a non-string property value, without throwing. The model also returns None there.
- The UI-only pages and components, the authentication context, the HTTP client, the route files and the profile, opportunities and skills controllers are thin wiring, so they are not part of this model.
