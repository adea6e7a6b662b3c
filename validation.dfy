/** Request-body validation (backend/src/middleware/validation.ts): the
    schemas as field rules, the issues a schema raises for a body in the
    order the schema library reports them, and the `validate` middleware
    that either passes the request on or answers 400 with one detail per
    issue. Whether a string is a URL is a parameter. */
module Validation {
  import opened Common

  /** A request body as decoded JSON; numbers, booleans, null and objects
      nested below the top level are all `JOther` to the schemas here. */
  datatype JsonValue =
    | JStr(s: string)
    | JArr(items: seq<JsonValue>)
    | JObj(fields: map<string, JsonValue>)
    | JOther

  /** What a schema demands of one field's value. */
  datatype Rule =
    | AnyText                        // z.string()
    | Text(min: nat, max: nat)       // z.string().min(min).max(max)
    | OneOf(options: seq<string>)    // z.enum(options)
    | TextList(min: nat, max: nat)   // z.array(z.string()).min(min).max(max)
    | Link                           // z.string().url()

  datatype Field = Field(name: string, rule: Rule, optional: bool)

  type Schema = seq<Field>

  datatype IssueKind = Required | WrongType | TooShort(min: nat) | TooLong(max: nat) | NotInEnum | NotUrl

  /** One reported problem and the path (keys and array indices) to it. */
  datatype Issue = Issue(path: seq<string>, kind: IssueKind)

  /** One entry of the 400 response's `details`. */
  datatype Detail = Detail(field: string, kind: IssueKind)

  datatype Outcome =
    | Proceed
    | Reject(status: int, success: bool, error: string, details: seq<Detail>)

  const ValidationFailed: string := "Validation failed"

  const Languages: seq<string> := ["am", "om", "en"]

  const RoadmapSchema: Schema := [
    Field("careerGoal", Text(2, 200), false),
    Field("currentSkillLevel", AnyText, true),
    Field("preferredLanguage", OneOf(Languages), true)]

  const ExplainSchema: Schema := [
    Field("concept", Text(2, 500), false),
    Field("language", OneOf(Languages), false),
    Field("context", Text(0, 500), true)]

  const OpportunitiesSchema: Schema := [
    Field("careerGoal", Text(2, 200), false),
    Field("skillLevel", AnyText, true),
    Field("category", AnyText, true)]

  const SkillsEvalSchema: Schema := [
    Field("careerGoal", Text(2, 200), false),
    Field("currentSkills", TextList(1, 20), false),
    Field("experience", Text(0, 1000), true)]

  const SaveProfileSchema: Schema := [
    Field("name", Text(1, 100), true),
    Field("languagePreference", OneOf(Languages), true),
    Field("careerGoals", TextList(0, 10), true)]

  const ChatSchema: Schema := [
    Field("message", Text(1, 2000), false),
    Field("language", OneOf(Languages), true),
    Field("historyId", AnyText, true)]

  const SaveOpportunitySchema: Schema := [
    Field("title", Text(1, 200), false),
    Field("provider", Text(1, 100), false),
    Field("url", Link, false),
    Field("category", Text(1, 50), false),
    Field("skillLevel", Text(1, 50), false),
    Field("description", Text(0, 500), true)]

  // ---------------------------------------------------------------------
  // Issues, in reporting order
  // ---------------------------------------------------------------------

  /** The length checks of a string or array: the minimum first, then the maximum. */
  function LengthIssues(path: seq<string>, len: nat, min: nat, max: nat): seq<Issue> {
    (if len < min then [Issue(path, TooShort(min))] else [])
    + (if len > max then [Issue(path, TooLong(max))] else [])
  }

  /** The element checks of a string array, from index `start` on. */
  function ElementIssues(path: seq<string>, items: seq<JsonValue>, start: nat): seq<Issue>
    decreases |items|
  {
    if items == [] then []
    else
      (if items[0].JStr? then [] else [Issue(path + [NatToString(start)], WrongType)])
      + ElementIssues(path, items[1..], start + 1)
  }

  function ValueIssues(path: seq<string>, rule: Rule, v: JsonValue, isUrl: string -> bool): seq<Issue> {
    match rule
    case AnyText => if v.JStr? then [] else [Issue(path, WrongType)]
    case Text(min, max) =>
      if v.JStr? then LengthIssues(path, |v.s|, min, max) else [Issue(path, WrongType)]
    case OneOf(options) =>
      if !v.JStr? then [Issue(path, WrongType)]
      else if v.s in options then []
      else [Issue(path, NotInEnum)]
    case TextList(min, max) =>
      if v.JArr? then LengthIssues(path, |v.items|, min, max) + ElementIssues(path, v.items, 0)
      else [Issue(path, WrongType)]
    case Link =>
      if !v.JStr? then [Issue(path, WrongType)]
      else if isUrl(v.s) then []
      else [Issue(path, NotUrl)]
  }

  /** A missing field is an issue unless the field is optional. */
  function FieldIssues(f: Field, obj: map<string, JsonValue>, isUrl: string -> bool): seq<Issue> {
    if f.name in obj then ValueIssues([f.name], f.rule, obj[f.name], isUrl)
    else if f.optional then []
    else [Issue([f.name], Required)]
  }

  function FieldsIssues(schema: Schema, obj: map<string, JsonValue>, isUrl: string -> bool): seq<Issue> {
    if schema == [] then []
    else FieldIssues(schema[0], obj, isUrl) + FieldsIssues(schema[1..], obj, isUrl)
  }

  /** `schema.parse(body)`'s issues: a body that is not an object is one
      type issue at the root; otherwise each field's issues in schema order
      (keys the schema does not name are ignored). */
  function Issues(schema: Schema, body: JsonValue, isUrl: string -> bool): seq<Issue> {
    if body.JObj? then FieldsIssues(schema, body.fields, isUrl) else [Issue([], WrongType)]
  }

  /** `validate(schemaName)`: the request proceeds when the body parses;
      otherwise 400 with each issue's path joined by "." as its field. */
  function Validate(schema: Schema, body: JsonValue, isUrl: string -> bool): (o: Outcome)
    ensures o.Proceed? <==> Issues(schema, body, isUrl) == []
    ensures o.Reject? ==>
      && o.status == 400 && !o.success && o.error == ValidationFailed
      && |o.details| == |Issues(schema, body, isUrl)|
      && forall i :: 0 <= i < |o.details| ==>
           o.details[i] == Detail(Join(Issues(schema, body, isUrl)[i].path, "."), Issues(schema, body, isUrl)[i].kind)
  {
    var issues := Issues(schema, body, isUrl);
    if issues == [] then Proceed
    else Reject(400, false, ValidationFailed, seq(|issues|, i requires 0 <= i < |issues| => Detail(Join(issues[i].path, "."), issues[i].kind)))
  }

  // ---------------------------------------------------------------------
  // What acceptance means, field by field
  // ---------------------------------------------------------------------

  predicate TextBetween(v: JsonValue, min: nat, max: nat) {
    v.JStr? && min <= |v.s| <= max
  }

  predicate AllText(items: seq<JsonValue>) {
    forall i :: 0 <= i < |items| ==> items[i].JStr?
  }

  /** A value that meets a rule, stated directly. */
  predicate ValueOk(rule: Rule, v: JsonValue, isUrl: string -> bool) {
    match rule
    case AnyText => v.JStr?
    case Text(min, max) => TextBetween(v, min, max)
    case OneOf(options) => v.JStr? && v.s in options
    case TextList(min, max) => v.JArr? && min <= |v.items| <= max && AllText(v.items)
    case Link => v.JStr? && isUrl(v.s)
  }

  predicate FieldOk(f: Field, obj: map<string, JsonValue>, isUrl: string -> bool) {
    if f.name in obj then ValueOk(f.rule, obj[f.name], isUrl) else f.optional
  }

  /** A string array raises no element issue exactly when all its items are strings. */
  lemma {:induction false} ElementIssuesEmpty(path: seq<string>, items: seq<JsonValue>, start: nat)
    ensures ElementIssues(path, items, start) == [] <==> AllText(items)
    decreases |items|
  {
    if items != [] {
      ElementIssuesEmpty(path, items[1..], start + 1);
      assert forall i :: 1 <= i < |items| ==> items[i] == items[1..][i - 1];
    }
  }

  /** An item that is not a string raises a type issue at its own index. */
  lemma {:induction false} ElementIssueAt(path: seq<string>, items: seq<JsonValue>, start: nat, i: nat)
    requires i < |items| && !items[i].JStr?
    ensures Issue(path + [NatToString(start + i)], WrongType) in ElementIssues(path, items, start)
    decreases i
  {
    var issue := Issue(path + [NatToString(start + i)], WrongType);
    var rest := ElementIssues(path, items[1..], start + 1);
    if i == 0 {
      assert ElementIssues(path, items, start) == [issue] + rest;
    } else {
      var head := if items[0].JStr? then [] else [Issue(path + [NatToString(start)], WrongType)];
      assert ElementIssues(path, items, start) == head + rest;
      assert items[1..][i - 1] == items[i];
      ElementIssueAt(path, items[1..], start + 1, i - 1);
      assert start + 1 + (i - 1) == start + i;
      assert issue in rest;
    }
  }

  lemma ValueIssuesSpec(path: seq<string>, rule: Rule, v: JsonValue, isUrl: string -> bool)
    ensures ValueIssues(path, rule, v, isUrl) == [] <==> ValueOk(rule, v, isUrl)
  {
    if rule.TextList? && v.JArr? {
      ElementIssuesEmpty(path, v.items, 0);
    }
  }

  lemma {:induction false} FieldsIssuesSpec(schema: Schema, obj: map<string, JsonValue>, isUrl: string -> bool)
    ensures FieldsIssues(schema, obj, isUrl) == [] <==>
      forall i :: 0 <= i < |schema| ==> FieldOk(schema[i], obj, isUrl)
  {
    if schema != [] {
      FieldsIssuesSpec(schema[1..], obj, isUrl);
      var f := schema[0];
      if f.name in obj {
        ValueIssuesSpec([f.name], f.rule, obj[f.name], isUrl);
      }
      assert forall i :: 1 <= i < |schema| ==> schema[i] == schema[1..][i - 1];
    }
  }

  /** A body passes exactly when it is an object and every field of the
      schema meets its rule (absent only when optional). */
  lemma Accepts(schema: Schema, body: JsonValue, isUrl: string -> bool)
    ensures Validate(schema, body, isUrl).Proceed? <==>
      body.JObj? && forall i :: 0 <= i < |schema| ==> FieldOk(schema[i], body.fields, isUrl)
  {
    if body.JObj? {
      FieldsIssuesSpec(schema, body.fields, isUrl);
    }
  }

  /** An optional string field is absent or a string of the given length. */
  predicate OptionalText(m: map<string, JsonValue>, name: string, min: nat, max: nat) {
    name in m ==> TextBetween(m[name], min, max)
  }

  predicate IsLanguage(v: JsonValue) {
    v.JStr? && (v.s == "am" || v.s == "om" || v.s == "en")
  }

  predicate OptionalLanguage(m: map<string, JsonValue>, name: string) {
    name in m ==> IsLanguage(m[name])
  }

  lemma ThreeFields(schema: Schema, m: map<string, JsonValue>, isUrl: string -> bool)
    requires |schema| == 3
    ensures Validate(schema, JObj(m), isUrl).Proceed? <==>
      FieldOk(schema[0], m, isUrl) && FieldOk(schema[1], m, isUrl) && FieldOk(schema[2], m, isUrl)
  {
    Accepts(schema, JObj(m), isUrl);
    if FieldOk(schema[0], m, isUrl) && FieldOk(schema[1], m, isUrl) && FieldOk(schema[2], m, isUrl) {
      forall i | 0 <= i < 3 ensures FieldOk(schema[i], m, isUrl) {
        assert i == 0 || i == 1 || i == 2;
      }
    }
  }

  /** The roadmap body: a career goal of 2 to 200 characters, an optional
      skill level, and an optional language among am, om and en. */
  lemma RoadmapRules(m: map<string, JsonValue>, isUrl: string -> bool)
    ensures Validate(RoadmapSchema, JObj(m), isUrl).Proceed? <==>
      && "careerGoal" in m && TextBetween(m["careerGoal"], 2, 200)
      && ("currentSkillLevel" in m ==> m["currentSkillLevel"].JStr?)
      && OptionalLanguage(m, "preferredLanguage")
  {
    ThreeFields(RoadmapSchema, m, isUrl);
  }

  /** The explain body: a concept of 2 to 500 characters, a required
      language among am, om and en, and an optional context of at most 500. */
  lemma ExplainRules(m: map<string, JsonValue>, isUrl: string -> bool)
    ensures Validate(ExplainSchema, JObj(m), isUrl).Proceed? <==>
      && "concept" in m && TextBetween(m["concept"], 2, 500)
      && "language" in m && IsLanguage(m["language"])
      && OptionalText(m, "context", 0, 500)
  {
    ThreeFields(ExplainSchema, m, isUrl);
  }

  /** The opportunities body: a career goal of 2 to 200 characters and
      optional skill level and category strings. */
  lemma OpportunitiesRules(m: map<string, JsonValue>, isUrl: string -> bool)
    ensures Validate(OpportunitiesSchema, JObj(m), isUrl).Proceed? <==>
      && "careerGoal" in m && TextBetween(m["careerGoal"], 2, 200)
      && ("skillLevel" in m ==> m["skillLevel"].JStr?)
      && ("category" in m ==> m["category"].JStr?)
  {
    ThreeFields(OpportunitiesSchema, m, isUrl);
  }

  /** The skills-evaluation body: a career goal of 2 to 200 characters,
      1 to 20 current skills that are all strings, and an optional
      experience of at most 1000 characters. */
  lemma SkillsEvalRules(m: map<string, JsonValue>, isUrl: string -> bool)
    ensures Validate(SkillsEvalSchema, JObj(m), isUrl).Proceed? <==>
      && "careerGoal" in m && TextBetween(m["careerGoal"], 2, 200)
      && "currentSkills" in m && m["currentSkills"].JArr?
      && 1 <= |m["currentSkills"].items| <= 20 && AllText(m["currentSkills"].items)
      && OptionalText(m, "experience", 0, 1000)
  {
    ThreeFields(SkillsEvalSchema, m, isUrl);
  }

  /** The profile body: every field optional; a name of 1 to 100
      characters, a language among am, om and en, at most 10 career goals. */
  lemma SaveProfileRules(m: map<string, JsonValue>, isUrl: string -> bool)
    ensures Validate(SaveProfileSchema, JObj(m), isUrl).Proceed? <==>
      && OptionalText(m, "name", 1, 100)
      && OptionalLanguage(m, "languagePreference")
      && ("careerGoals" in m ==>
            m["careerGoals"].JArr? && |m["careerGoals"].items| <= 10 && AllText(m["careerGoals"].items))
  {
    ThreeFields(SaveProfileSchema, m, isUrl);
    OptionalLanguageField("languagePreference", m, isUrl);
    assert SaveProfileSchema[2] == Field("careerGoals", TextList(0, 10), true);
  }

  /** An optional language field is met exactly by an absent value or one of the three codes. */
  lemma OptionalLanguageField(name: string, m: map<string, JsonValue>, isUrl: string -> bool)
    ensures FieldOk(Field(name, OneOf(Languages), true), m, isUrl) <==> OptionalLanguage(m, name)
  {
  }

  /** The chat body: a message of 1 to 2000 characters, an optional
      language among am, om and en, an optional history id string. */
  lemma ChatRules(m: map<string, JsonValue>, isUrl: string -> bool)
    ensures Validate(ChatSchema, JObj(m), isUrl).Proceed? <==>
      && "message" in m && TextBetween(m["message"], 1, 2000)
      && OptionalLanguage(m, "language")
      && ("historyId" in m ==> m["historyId"].JStr?)
  {
    ThreeFields(ChatSchema, m, isUrl);
  }

  /** The opportunity body: title 1 to 200, provider 1 to 100, a URL,
      category and skill level 1 to 50, an optional description of at most 500. */
  lemma SaveOpportunityRules(m: map<string, JsonValue>, isUrl: string -> bool)
    ensures Validate(SaveOpportunitySchema, JObj(m), isUrl).Proceed? <==>
      && "title" in m && TextBetween(m["title"], 1, 200)
      && "provider" in m && TextBetween(m["provider"], 1, 100)
      && "url" in m && m["url"].JStr? && isUrl(m["url"].s)
      && "category" in m && TextBetween(m["category"], 1, 50)
      && "skillLevel" in m && TextBetween(m["skillLevel"], 1, 50)
      && OptionalText(m, "description", 0, 500)
  {
    var s := SaveOpportunitySchema;
    Accepts(s, JObj(m), isUrl);
    if FieldOk(s[0], m, isUrl) && FieldOk(s[1], m, isUrl) && FieldOk(s[2], m, isUrl)
       && FieldOk(s[3], m, isUrl) && FieldOk(s[4], m, isUrl) && FieldOk(s[5], m, isUrl) {
      forall i | 0 <= i < 6 ensures FieldOk(s[i], m, isUrl) {
        assert i == 0 || i == 1 || i == 2 || i == 3 || i == 4 || i == 5;
      }
    }
  }

  /** Every language enum lists only am, om and en, so a Tigrinya or Somali
      code is turned away even though the application's Language type has them. */
  lemma TigrinyaAndSomaliRejected(m: map<string, JsonValue>, isUrl: string -> bool, code: string)
    requires code == "tg" || code == "so"
    ensures "language" in m && m["language"] == JStr(code) ==>
      !Validate(ExplainSchema, JObj(m), isUrl).Proceed? && !Validate(ChatSchema, JObj(m), isUrl).Proceed?
    ensures "preferredLanguage" in m && m["preferredLanguage"] == JStr(code) ==>
      !Validate(RoadmapSchema, JObj(m), isUrl).Proceed?
    ensures "languagePreference" in m && m["languagePreference"] == JStr(code) ==>
      !Validate(SaveProfileSchema, JObj(m), isUrl).Proceed?
  {
    ExplainRules(m, isUrl);
    ChatRules(m, isUrl);
    RoadmapRules(m, isUrl);
    SaveProfileRules(m, isUrl);
  }

  /** A non-string skill at index i is reported under the field
      "currentSkills.<i>". */
  lemma SkillItemDetail(m: map<string, JsonValue>, isUrl: string -> bool, i: nat)
    requires "currentSkills" in m && m["currentSkills"].JArr?
    requires i < |m["currentSkills"].items| && !m["currentSkills"].items[i].JStr?
    ensures var o := Validate(SkillsEvalSchema, JObj(m), isUrl);
      o.Reject? && Detail("currentSkills." + NatToString(i), WrongType) in o.details
  {
    var issue := Issue(["currentSkills", NatToString(i)], WrongType);
    SkillItemIssue(m, isUrl, i);
    IssueReported(SkillsEvalSchema, JObj(m), isUrl, issue);
    assert Join(issue.path, ".") == "currentSkills." + NatToString(i);
  }

  /** The element's type issue is among the parse issues. */
  lemma SkillItemIssue(m: map<string, JsonValue>, isUrl: string -> bool, i: nat)
    requires "currentSkills" in m && m["currentSkills"].JArr?
    requires i < |m["currentSkills"].items| && !m["currentSkills"].items[i].JStr?
    ensures Issue(["currentSkills", NatToString(i)], WrongType) in Issues(SkillsEvalSchema, JObj(m), isUrl)
  {
    var items := m["currentSkills"].items;
    var path := ["currentSkills"];
    ElementIssueAt(path, items, 0, i);
    assert path + [NatToString(i)] == ["currentSkills", NatToString(i)];
    var own := FieldIssues(SkillsEvalSchema[1], m, isUrl);
    assert own == LengthIssues(path, |items|, 1, 20) + ElementIssues(path, items, 0);
    var rest := SkillsEvalSchema[1..];
    assert rest[0] == SkillsEvalSchema[1];
    assert FieldsIssues(rest, m, isUrl) == own + FieldsIssues(rest[1..], m, isUrl);
  }

  /** Every parse issue is reported, as its joined path and its kind. */
  lemma IssueReported(schema: Schema, body: JsonValue, isUrl: string -> bool, issue: Issue)
    requires issue in Issues(schema, body, isUrl)
    ensures var o := Validate(schema, body, isUrl);
      o.Reject? && Detail(Join(issue.path, "."), issue.kind) in o.details
  {
    var all := Issues(schema, body, isUrl);
    var k :| 0 <= k < |all| && all[k] == issue;
    var o := Validate(schema, body, isUrl);
    assert o.details[k] == Detail(Join(issue.path, "."), issue.kind);
  }
}
