/** The prompt templates sent to the language-model provider
    (backend/src/config/prompts.ts). Each template is a pure function of its
    arguments; an optional argument counts as given only when it is a
    non-empty string, as JavaScript truthiness has it. */
module Prompts {
  import opened Common
  import opened Domain

  // ---------------------------------------------------------------------
  // roadmap
  // ---------------------------------------------------------------------

  const RoadmapStagesText: string :=
    "\n\nInclude exactly 5 stages:\n"
    + "1. Beginner - Introduction " + "and fundamentals\n"
    + "2. Foundations - Core concepts " + "and basic skills\n"
    + "3. Intermediate - Practical " + "application and deeper knowledge\n"
    + "4. Projects - Hands-on " + "experience and portfolio building\n"
    + "5. Job Readiness - Professional " + "skills and career preparation\n"
    + "\nFor each stage, provide:\n"
    + "- A clear title\n"
    + "- A brief description (2-3 sentences)\n"
    + "- 3-5 recommended FREE resources" + " (online courses, YouTube " + "channels, documentation, " + "etc.)\n"
    + "- Estimated duration to complete\n"
    + "\nFocus on resources that are:\n"
    + "- Free and accessible\n"
    + "- Available in English (with " + "subtitles when possible)\n"
    + "- Relevant to the Ethiopian " + "context and job market\n"
    + "- Practical and hands-on\n\n"

  const RoadmapShapeSegments: seq<string> := [
    "Respond in valid JSON format:",
    "\n{\n  ",
    "\"stages\"",
    ": [\n    {\n"
    + "      \"title\": \"Stage Title\",\n"
    + "      \"description\": \"Brief " + "description of this stage\",\n"
    + "      \"duration\": \"Estimated " + "time (e.g., '2-4 weeks')\",\n"
    + "      \"resources\": [\"Resource " + "1\", \"Resource 2\", \"Resource 3\"],\n"
    + "      \"skills\": [\"Skill 1\", \"Skill 2\"]\n"
    + "    }\n  ]\n}\n"]

  /** The closing instruction naming the top-level field `stages`. */
  const RoadmapShape: string := Concat(RoadmapShapeSegments)

  function SkillLevelSentence(skillLevel: Option<string>): string {
    if Given(skillLevel) then "The learner's current skill level is: " + skillLevel.value
    else "Assume the learner is a " + "complete beginner."
  }

  const RoadmapIntro: string := "\nYou are TenaAI, an AI mentor " + "for Ethiopian youth. Create " + "a clear, step-by-step learning " + "pathway for "

  function RoadmapSegments(careerGoal: string, skillLevel: Option<string>): seq<string> {
    [ RoadmapIntro,
      "becoming a " + careerGoal + ".",
      "\n",
      SkillLevelSentence(skillLevel),
      RoadmapStagesText,
      RoadmapShape ]
  }

  /** `PROMPTS.roadmap(careerGoal, skillLevel)`. */
  function Roadmap(careerGoal: string, skillLevel: Option<string>): string {
    Concat(RoadmapSegments(careerGoal, skillLevel))
  }

  /** The roadmap prompt names the career goal and states the learner's
      level: the given level, or that the learner is a complete beginner. */
  lemma RoadmapContent(careerGoal: string, skillLevel: Option<string>)
    ensures Contains(Roadmap(careerGoal, skillLevel), "becoming a " + careerGoal + ".")
    ensures Given(skillLevel) ==>
      Contains(Roadmap(careerGoal, skillLevel), "The learner's current skill level is: " + skillLevel.value)
    ensures !Given(skillLevel) ==>
      Contains(Roadmap(careerGoal, skillLevel), "Assume the learner is a " + "complete beginner.")
      && Roadmap(careerGoal, skillLevel) == Roadmap(careerGoal, None)
    ensures EndsWith(Roadmap(careerGoal, skillLevel), RoadmapShape)
  {
    var segs := RoadmapSegments(careerGoal, skillLevel);
    ConcatContains(segs, 1);
    ConcatContains(segs, 3);
    ConcatEnds(segs);
  }

  /** The roadmap shape instruction names the top-level field "stages". */
  lemma RoadmapShapeNamesStages()
    ensures StartsWith(RoadmapShape, "Respond in valid JSON format:")
    ensures Contains(RoadmapShape, "\"stages\"")
  {
    var segs := RoadmapShapeSegments;
    ConcatEnds(segs);
    ConcatContains(segs, 2);
  }

  // ---------------------------------------------------------------------
  // explain
  // ---------------------------------------------------------------------

  /** The languages `explain` accepts. */
  predicate ExplainLanguage(l: Language) {
    l == Am || l == Om || l == En
  }

  const AmharicName: string := "Amharic (\U{12A0}\U{121B}\U{122D}\U{129B})"
  const OromoName: string := "Afan Oromo (Oromiffa)"
  const EnglishName: string := "English"

  function ExplainLanguageName(l: Language): string
    requires ExplainLanguage(l)
  {
    match l
    case Am => AmharicName
    case Om => OromoName
    case En => EnglishName
  }

  const AmharicScript: string := "Use Amharic script (\U{134A}\U{12F0}\U{120D}) " + "for your response. Make " + "sure the explanation is " + "culturally relevant to Ethiopian" + " students."
  const OromoScript: string := "Use Latin script for Afan " + "Oromo. Make the explanation " + "relatable to Oromo-speaking " + "students in Ethiopia."
  const EnglishScript: string := "Use simple, clear English " + "suitable for non-native " + "speakers."

  function ExplainScriptInstruction(l: Language): string
    requires ExplainLanguage(l)
  {
    match l
    case Am => AmharicScript
    case Om => OromoScript
    case En => EnglishScript
  }

  const ExplainIntro: string := "\nYou are TenaAI, a friendly " + "AI tutor helping Ethiopian " + "youth learn STEM concepts.\n"

  const ExplainGuidance: string :=
    "\n\nYour explanation should:\n"
    + "1. Start with a simple definition\n"
    + "2. Use relatable everyday " + "examples from Ethiopian life\n"
    + "3. Break down complex ideas " + "into simple steps\n"
    + "4. Include a practical " + "application or real-world use case\n"
    + "5. End with a quick summary " + "or key takeaway\n"
    + "\nKeep the tone friendly, " + "encouraging, and patient. " + "Remember you're speaking " + "to young learners who may " + "be new to this topic.\n"

  function ContextLine(context: Option<string>): string {
    if Given(context) then "Additional context: " + context.value else ""
  }

  function ExplainSegments(concept: string, language: Language, context: Option<string>): seq<string>
    requires ExplainLanguage(language)
  {
    [ ExplainIntro,
      "Explain the following concept in " + ExplainLanguageName(language) + ".",
      "\n",
      ExplainScriptInstruction(language),
      "\n\n",
      "Concept: " + concept,
      "\n",
      ContextLine(context),
      ExplainGuidance ]
  }

  /** `PROMPTS.explain(concept, language, context)`. */
  function Explain(concept: string, language: Language, context: Option<string>): string
    requires ExplainLanguage(language)
  {
    Concat(ExplainSegments(concept, language, context))
  }

  /** The explanation prompt names the target language, carries its script
      instruction and the concept. */
  lemma ExplainContent(concept: string, language: Language, context: Option<string>)
    requires ExplainLanguage(language)
    ensures Contains(Explain(concept, language, context), "Explain the following concept in " + ExplainLanguageName(language) + ".")
    ensures Contains(Explain(concept, language, context), ExplainScriptInstruction(language))
    ensures Contains(Explain(concept, language, context), "Concept: " + concept)
  {
    ExplainNamesLanguage(concept, language, context);
    ExplainHasScript(concept, language, context);
    ExplainHasConcept(concept, language, context);
  }

  lemma ExplainNamesLanguage(concept: string, language: Language, context: Option<string>)
    requires ExplainLanguage(language)
    ensures Contains(Explain(concept, language, context), "Explain the following concept in " + ExplainLanguageName(language) + ".")
  {
    ExplainHasSegment(concept, language, context, 1);
  }

  lemma ExplainHasScript(concept: string, language: Language, context: Option<string>)
    requires ExplainLanguage(language)
    ensures Contains(Explain(concept, language, context), ExplainScriptInstruction(language))
  {
    ExplainHasSegment(concept, language, context, 3);
  }

  lemma ExplainHasConcept(concept: string, language: Language, context: Option<string>)
    requires ExplainLanguage(language)
    ensures Contains(Explain(concept, language, context), "Concept: " + concept)
  {
    ExplainHasSegment(concept, language, context, 5);
  }

  lemma ExplainHasSegment(concept: string, language: Language, context: Option<string>, i: nat)
    requires ExplainLanguage(language) && i < |ExplainSegments(concept, language, context)|
    ensures Contains(Explain(concept, language, context), ExplainSegments(concept, language, context)[i])
  {
    ConcatContains(ExplainSegments(concept, language, context), i);
  }

  /** The explanation prompt has an "Additional context:" line when a
      context is given; without one it is the same prompt, shorter by exactly
      that line. */
  lemma ExplainContextLine(concept: string, language: Language, context: Option<string>)
    requires ExplainLanguage(language)
    ensures Given(context) ==>
      Contains(Explain(concept, language, context), "Additional context: " + context.value)
      && |Explain(concept, language, context)|
         == |Explain(concept, language, None)| + |"Additional context: "| + |context.value|
    ensures !Given(context) ==> Explain(concept, language, context) == Explain(concept, language, None)
  {
    if Given(context) {
      ExplainHasSegment(concept, language, context, 7);
      ExplainWithoutContext(concept, language, context);
    } else {
      assert ExplainSegments(concept, language, context) == ExplainSegments(concept, language, None);
    }
  }

  lemma ExplainWithoutContext(concept: string, language: Language, context: Option<string>)
    requires ExplainLanguage(language) && Given(context)
    ensures |Explain(concept, language, context)|
            == |Explain(concept, language, None)| + |ContextLine(context)|
  {
    var segs := ExplainSegments(concept, language, context);
    assert segs[7 := ""] == ExplainSegments(concept, language, None);
    ConcatLengthUpdate(segs, 7, "");
  }

  /** The three explanation languages carry the names the tutor uses. */
  lemma ExplainLanguageNames()
    ensures ExplainLanguageName(Am) == "Amharic (\U{12A0}\U{121B}\U{122D}\U{129B})"
    ensures ExplainLanguageName(Om) == "Afan Oromo (Oromiffa)"
    ensures ExplainLanguageName(En) == "English"
  {
  }

  // ---------------------------------------------------------------------
  // opportunities
  // ---------------------------------------------------------------------

  const OpportunitiesGuidance: string :=
    "\n\nFor each opportunity, provide:\n"
    + "- Title of the program/opportunity\n"
    + "- Provider/Organization name\n"
    + "- URL (use real, verified " + "URLs when possible, or indicate " + "\"Search for latest\")\n"
    + "- Category (internship, " + "scholarship, course, bootcamp, " + "fellowship)\n"
    + "- Required skill level (beginner" + ", intermediate, advanced)\n"
    + "- A one-line description\n"
    + "\nPrioritize:\n"
    + "- Opportunities open to " + "African/Ethiopian applicants\n"
    + "- Remote-friendly options\n"
    + "- Free or funded programs\n"
    + "- Programs with good track records\n\n"

  const OpportunitiesShapeSegments: seq<string> := [
    "Respond in valid JSON format:",
    "\n{\n  ",
    "\"opportunities\"",
    ": [\n    {\n"
    + "      \"title\": \"Opportunity Title\",\n"
    + "      \"provider\": \"Organization Name\",\n"
    + "      \"url\": \"https://example.com\",\n"
    + "      \"category\": \"scholarship\",\n"
    + "      \"skillLevel\": \"beginner\",\n"
    + "      \"description\": \"One-line " + "description of the opportunity\"\n"
    + "    }\n  ]\n}\n"]

  /** The closing instruction naming the top-level field `opportunities`. */
  const OpportunitiesShape: string := Concat(OpportunitiesShapeSegments)

  function SkillLevelLine(skillLevel: Option<string>): string {
    if Given(skillLevel) then "Skill level: " + skillLevel.value else ""
  }

  const DefaultMixLine: string := "Include a mix of internships, " + "scholarships, and online " + "programs."

  function CategoryLine(category: Option<string>): string {
    if Given(category) then "Focus on: " + category.value else DefaultMixLine
  }

  const OpportunitiesIntro: string := "\nYou are TenaAI, helping " + "Ethiopian youth find learning " + "and career opportunities.\n" + "Generate a list of 5 relevant " + "opportunities for "

  function OpportunitiesSegments(careerGoal: string, skillLevel: Option<string>, category: Option<string>): seq<string> {
    [ OpportunitiesIntro,
      "someone learning " + careerGoal + ".",
      "\n",
      SkillLevelLine(skillLevel),
      "\n",
      CategoryLine(category),
      OpportunitiesGuidance,
      OpportunitiesShape ]
  }

  /** `PROMPTS.opportunities(careerGoal, skillLevel, category)`. */
  function Opportunities(careerGoal: string, skillLevel: Option<string>, category: Option<string>): string {
    Concat(OpportunitiesSegments(careerGoal, skillLevel, category))
  }

  /** The opportunities prompt names the goal, has a skill-level line only
      when a level is given, focuses on the given category or else asks for
      the default mix, and ends with the shape naming "opportunities". */
  lemma OpportunitiesContent(careerGoal: string, skillLevel: Option<string>, category: Option<string>)
    ensures Contains(Opportunities(careerGoal, skillLevel, category), "someone learning " + careerGoal + ".")
    ensures Given(skillLevel) ==>
      Contains(Opportunities(careerGoal, skillLevel, category), "Skill level: " + skillLevel.value)
      && |Opportunities(careerGoal, skillLevel, category)|
         == |Opportunities(careerGoal, None, category)| + |"Skill level: "| + |skillLevel.value|
    ensures !Given(skillLevel) ==>
      Opportunities(careerGoal, skillLevel, category) == Opportunities(careerGoal, None, category)
    ensures Given(category) ==>
      Contains(Opportunities(careerGoal, skillLevel, category), "Focus on: " + category.value)
    ensures !Given(category) ==>
      Contains(Opportunities(careerGoal, skillLevel, category), DefaultMixLine)
      && Opportunities(careerGoal, skillLevel, category) == Opportunities(careerGoal, skillLevel, None)
    ensures EndsWith(Opportunities(careerGoal, skillLevel, category), OpportunitiesShape)
  {
    var segs := OpportunitiesSegments(careerGoal, skillLevel, category);
    ConcatContains(segs, 1);
    ConcatContains(segs, 3);
    ConcatContains(segs, 5);
    ConcatEnds(segs);
    assert segs[3 := ""] == OpportunitiesSegments(careerGoal, None, category);
    ConcatLengthUpdate(segs, 3, "");
  }

  /** The opportunities shape instruction names the top-level field "opportunities". */
  lemma OpportunitiesShapeNamesField()
    ensures StartsWith(OpportunitiesShape, "Respond in valid JSON format:")
    ensures Contains(OpportunitiesShape, "\"opportunities\"")
  {
    var segs := OpportunitiesShapeSegments;
    ConcatEnds(segs);
    ConcatContains(segs, 2);
  }

  // ---------------------------------------------------------------------
  // skillsEval
  // ---------------------------------------------------------------------

  const SkillsProvide: string :=
    "\n\nProvide:\n"
    + "1. An assessment of their " + "current skill set relative " + "to the career goal\n"
    + "2. Identify 5-7 key skill " + "gaps they need to address\n"
    + "3. Provide 5-7 specific, " + "actionable recommendations " + "for next steps\n"
    + "\nFocus on:\n"

  const SkillsFocusRest: string :=
    "\n- Soft skills important " + "for the Ethiopian job market\n"
    + "- Practical steps they can " + "take immediately\n"
    + "- Free or affordable resources " + "available in Ethiopia\n\n"

  const SkillsShapeSegments: seq<string> := [
    "Respond in valid JSON format:",
    "\n{\n  ",
    "\"assessment\"",
    ": \"Brief assessment of current " + "skills (2-3 sentences)\",\n  ",
    "\"skillGaps\"",
    ": [\"Skill gap 1\", " + "\"Skill gap 2\", \"Skill gap 3\"],\n  ",
    "\"recommendations\"",
    ": [\"Recommendation 1\", " + "\"Recommendation 2\", " + "\"Recommendation 3\"]\n}\n"]

  /** The closing instruction naming `assessment`, `skillGaps` and `recommendations`. */
  const SkillsShape: string := Concat(SkillsShapeSegments)

  function ExperienceLine(experience: Option<string>): string {
    if Given(experience) then "Experience: " + experience.value else ""
  }

  const SkillsEvalIntro: string := "\nYou are TenaAI, a career " + "advisor for Ethiopian youth.\n" + "Evaluate the skills of someone " + "aspiring to become a "

  function SkillsEvalSegments(careerGoal: string, currentSkills: seq<string>, experience: Option<string>): seq<string> {
    [ SkillsEvalIntro,
      careerGoal,
      ".\n\n",
      "Current skills: " + Join(currentSkills, ", "),
      "\n",
      ExperienceLine(experience),
      SkillsProvide,
      "- Technical skills specific to " + careerGoal,
      SkillsFocusRest,
      SkillsShape ]
  }

  /** `PROMPTS.skillsEval(careerGoal, currentSkills, experience)`. */
  function SkillsEval(careerGoal: string, currentSkills: seq<string>, experience: Option<string>): string {
    Concat(SkillsEvalSegments(careerGoal, currentSkills, experience))
  }

  /** The skills prompt lists the skills joined by ", ", has an Experience
      line only when experience is given, and ends with the shape naming the
      three result fields. */
  lemma SkillsEvalContent(careerGoal: string, currentSkills: seq<string>, experience: Option<string>)
    ensures Contains(SkillsEval(careerGoal, currentSkills, experience), "Current skills: " + Join(currentSkills, ", "))
    ensures Contains(SkillsEval(careerGoal, currentSkills, experience), "- Technical skills specific to " + careerGoal)
    ensures Given(experience) ==>
      Contains(SkillsEval(careerGoal, currentSkills, experience), "Experience: " + experience.value)
      && |SkillsEval(careerGoal, currentSkills, experience)|
         == |SkillsEval(careerGoal, currentSkills, None)| + |"Experience: "| + |experience.value|
    ensures !Given(experience) ==>
      SkillsEval(careerGoal, currentSkills, experience) == SkillsEval(careerGoal, currentSkills, None)
    ensures EndsWith(SkillsEval(careerGoal, currentSkills, experience), SkillsShape)
  {
    var segs := SkillsEvalSegments(careerGoal, currentSkills, experience);
    ConcatContains(segs, 3);
    ConcatContains(segs, 5);
    ConcatContains(segs, 7);
    ConcatEnds(segs);
    assert segs[5 := ""] == SkillsEvalSegments(careerGoal, currentSkills, None);
    ConcatLengthUpdate(segs, 5, "");
  }

  /** The skills shape instruction names "assessment", "skillGaps" and "recommendations". */
  lemma SkillsShapeNamesFields()
    ensures StartsWith(SkillsShape, "Respond in valid JSON format:")
    ensures Contains(SkillsShape, "\"assessment\"")
    ensures Contains(SkillsShape, "\"skillGaps\"")
    ensures Contains(SkillsShape, "\"recommendations\"")
  {
    var segs := SkillsShapeSegments;
    ConcatEnds(segs);
    ConcatContains(segs, 2);
    ConcatContains(segs, 4);
    ConcatContains(segs, 6);
  }
}
