/** The backend's shared record shapes (backend/src/types/index.ts).
    Dates are milliseconds since the epoch. */
module Domain {
  import opened Common

  /** The five interface languages. */
  datatype Language = En | Am | Om | Tg | So

  function LanguageCode(l: Language): string {
    match l
    case En => "en"
    case Am => "am"
    case Om => "om"
    case Tg => "tg"
    case So => "so"
  }

  /** Reads a language code; anything outside the five codes is not a Language. */
  function ParseLanguage(code: string): (r: Option<Language>)
    ensures r.Some? ==> LanguageCode(r.value) == code
  {
    if code == "en" then Some(En)
    else if code == "am" then Some(Am)
    else if code == "om" then Some(Om)
    else if code == "tg" then Some(Tg)
    else if code == "so" then Some(So)
    else None
  }

  /** Every language's code reads back as that language. */
  lemma ParseLanguageCode(l: Language)
    ensures ParseLanguage(LanguageCode(l)) == Some(l)
  {
  }

  datatype Role = User | Assistant

  datatype ChatMessage = ChatMessage(
    id: string,
    role: Role,
    content: string,
    language: Language,
    timestamp: int)

  datatype ChatHistory = ChatHistory(
    id: string,
    userId: string,
    messages: seq<ChatMessage>,
    topic: Option<string>,
    createdAt: int,
    updatedAt: int)

  /** The stored profile document (`users/{uid}/profile/main`); the uid is the path. */
  datatype ProfileDoc = ProfileDoc(
    name: string,
    email: string,
    languagePreference: Language,
    careerGoals: seq<string>,
    completedStages: seq<string>,
    createdAt: int,
    updatedAt: int)

  datatype UserProfile = UserProfile(uid: string, doc: ProfileDoc)

  datatype RoadmapStage = RoadmapStage(
    title: string,
    description: string,
    resources: seq<string>,
    duration: Option<string>,
    skills: Option<seq<string>>)

  datatype Roadmap = Roadmap(
    id: string,
    userId: string,
    careerGoal: string,
    stages: seq<RoadmapStage>,
    createdAt: int,
    updatedAt: int)

  /** An opportunity as the client supplies it (no id, no creation date). */
  datatype OpportunityDraft = OpportunityDraft(
    title: string,
    provider: string,
    url: string,
    category: string,
    skillLevel: string,
    description: Option<string>,
    deadline: Option<string>)

  datatype Opportunity = Opportunity(id: string, draft: OpportunityDraft, createdAt: int)
}
