/** The document store behind the backend (backend/src/services/firestore.ts).
    Each collection is a map from the user id to that user's documents, keyed
    by document id; the profile and the career-goal record are single
    documents per user. Fresh ids (uuid v4) and the clock (`new Date()`) are
    parameters of the operations that use them. */
module Firestore {
  import opened Common
  import opened Domain

  /** A user's documents of one collection. */
  function Docs<T>(m: map<string, map<string, T>>, uid: string): map<string, T> {
    if uid in m then m[uid] else map[]
  }

  /** The document `id` of user `uid`, if stored. */
  function Lookup<T>(m: map<string, map<string, T>>, uid: string, id: string): (r: Option<T>)
    ensures r.None? <==> id !in Docs(m, uid)
    ensures r.Some? ==> r.value == Docs(m, uid)[id]
  {
    if id in Docs(m, uid) then Some(Docs(m, uid)[id]) else None
  }

  /** `doc(id).set(v)` in the collection of user `uid`. */
  function Put<T>(m: map<string, map<string, T>>, uid: string, id: string, v: T): (r: map<string, map<string, T>>)
    ensures Docs(r, uid) == Docs(m, uid)[id := v]
    ensures forall u :: u != uid ==> Docs(r, u) == Docs(m, u)
  {
    m[uid := Docs(m, uid)[id := v]]
  }

  /** `doc(id).delete()` in the collection of user `uid`; deleting an absent
      document changes nothing. */
  function Remove<T>(m: map<string, map<string, T>>, uid: string, id: string): (r: map<string, map<string, T>>)
    ensures Docs(r, uid) == Docs(m, uid) - {id}
    ensures forall u :: u != uid ==> Docs(r, u) == Docs(m, u)
  {
    if uid in m then m[uid := m[uid] - {id}] else m
  }

  /** A saved document reads back, and no other document of any user changes. */
  lemma PutThenLookup<T>(m: map<string, map<string, T>>, uid: string, id: string, v: T, uid2: string, id2: string)
    ensures Lookup(Put(m, uid, id, v), uid2, id2)
            == if uid2 == uid && id2 == id then Some(v) else Lookup(m, uid2, id2)
  {
  }

  /** A deleted document is gone, and only that document. */
  lemma RemoveThenLookup<T>(m: map<string, map<string, T>>, uid: string, id: string, uid2: string, id2: string)
    ensures Lookup(Remove(m, uid, id), uid2, id2)
            == if uid2 == uid && id2 == id then None else Lookup(m, uid2, id2)
  {
  }

  // ---------------------------------------------------------------------
  // Ordered reads: orderBy(field, 'desc') and limit(n)
  // ---------------------------------------------------------------------

  /** Ordered by `key`, largest first. */
  predicate Descending<T>(list: seq<T>, key: T -> int) {
    forall i, j :: 0 <= i < j < |list| ==> key(list[i]) >= key(list[j])
  }

  function InsertDescending<T>(list: seq<T>, x: T, key: T -> int): (r: seq<T>)
    requires Descending(list, key)
    ensures Descending(r, key)
    ensures |r| == |list| + 1
    ensures x in r && forall y :: y in list ==> y in r
    ensures forall y :: y in r ==> y == x || y in list
  {
    if list == [] || key(x) >= key(list[0]) then [x] + list
    else
      var rest := InsertDescending(list[1..], x, key);
      HeadIsLargest(list, key);
      assert list == [list[0]] + list[1..];
      ConsDescending(list[0], rest, key);
      [list[0]] + rest
  }

  /** The first element of a descending list has the largest key. */
  lemma HeadIsLargest<T>(list: seq<T>, key: T -> int)
    requires Descending(list, key) && list != []
    ensures forall y :: y in list[1..] ==> key(y) <= key(list[0])
  {
    forall y | y in list[1..] ensures key(y) <= key(list[0]) {
      var k :| 0 <= k < |list[1..]| && list[1..][k] == y;
      assert list[k + 1] == y;
    }
  }

  /** An element whose key is at least every key of a descending list can
      be put in front of it. */
  lemma ConsDescending<T>(h: T, rest: seq<T>, key: T -> int)
    requires Descending(rest, key) && forall y :: y in rest ==> key(y) <= key(h)
    ensures Descending([h] + rest, key)
  {
    var r := [h] + rest;
    assert forall j :: 1 <= j < |r| ==> r[j] == rest[j - 1];
  }

  /** A collection's documents as a query ordered by `key` descending
      returns them, largest key first: every stored document appears, nothing
      else does, and the listing is as long as the collection. (Two ids
      holding equal documents are not told apart here; in a consistent
      store every document carries its own id, so none are equal.) */
  method NewestFirst<T(==)>(docs: map<string, T>, key: T -> int) returns (list: seq<T>)
    ensures Descending(list, key)
    ensures |list| == |docs|
    ensures forall id :: id in docs ==> docs[id] in list
    ensures forall i :: 0 <= i < |list| ==> list[i] in docs.Values
  {
    list := [];
    var pending := docs.Keys;
    ghost var done: set<string> := {};
    while pending != {}
      invariant pending !! done && pending + done == docs.Keys
      invariant Descending(list, key)
      invariant |list| == |done|
      invariant forall id :: id in done ==> docs[id] in list
      invariant forall y :: y in list ==> y in docs.Values
      decreases |pending|
    {
      var id :| id in pending;
      assert docs[id] in docs.Values;
      list := InsertDescending(list, docs[id], key);
      pending := pending - {id};
      done := done + {id};
    }
  }

  /** `limit(n)` on an ordered query: its first n results. */
  function Limit<T>(list: seq<T>, n: nat): (r: seq<T>)
    ensures |r| == if |list| < n then |list| else n
    ensures r == list[..|r|]
  {
    if |list| < n then list else list[..n]
  }

  /** The first `n` of a descending listing are the `n` largest: any element
      left out ranks no higher than the last one kept. */
  lemma LimitKeepsLargest<T>(list: seq<T>, key: T -> int, n: nat, x: T)
    requires Descending(list, key) && x in list && x !in Limit(list, n)
    ensures |Limit(list, n)| == n > 0 ==> key(x) <= key(Limit(list, n)[n - 1])
  {
    var j :| 0 <= j < |list| && list[j] == x;
  }

  // ---------------------------------------------------------------------
  // Documents
  // ---------------------------------------------------------------------

  /** The fields a profile upsert may carry (`Partial<UserProfile>`); an
      absent field is `None`. */
  datatype ProfileUpdate = ProfileUpdate(
    name: Option<string>,
    email: Option<string>,
    languagePreference: Option<Language>,
    careerGoals: Option<seq<string>>,
    completedStages: Option<seq<string>>)

  function OrElse<T>(o: Option<T>, d: T): T {
    if o.Some? then o.value else d
  }

  /** The profile after `upsertUserProfile`: created with defaults when none
      is stored, otherwise the supplied fields and `updatedAt` overwritten. */
  function UpsertedProfile(existing: Option<ProfileDoc>, data: ProfileUpdate, now: int): ProfileDoc {
    if existing.None? then
      ProfileDoc(OrElse(data.name, ""), OrElse(data.email, ""), OrElse(data.languagePreference, En),
                 OrElse(data.careerGoals, []), OrElse(data.completedStages, []), now, now)
    else
      var p := existing.value;
      p.(name := OrElse(data.name, p.name),
         email := OrElse(data.email, p.email),
         languagePreference := OrElse(data.languagePreference, p.languagePreference),
         careerGoals := OrElse(data.careerGoals, p.careerGoals),
         completedStages := OrElse(data.completedStages, p.completedStages),
         updatedAt := now)
  }

  /** A new profile takes the supplied fields and defaults the others to the
      empty name and email, English, and no goals or stages; both dates are
      the creation time. */
  lemma ProfileCreatedWithDefaults(data: ProfileUpdate, now: int)
    ensures var p := UpsertedProfile(None, data, now);
      && p.createdAt == p.updatedAt == now
      && (data.name.None? ==> p.name == "") && (data.name.Some? ==> p.name == data.name.value)
      && (data.email.None? ==> p.email == "") && (data.email.Some? ==> p.email == data.email.value)
      && (data.languagePreference.None? ==> p.languagePreference == En)
      && (data.languagePreference.Some? ==> p.languagePreference == data.languagePreference.value)
      && (data.careerGoals.None? ==> p.careerGoals == []) && (data.careerGoals.Some? ==> p.careerGoals == data.careerGoals.value)
      && (data.completedStages.None? ==> p.completedStages == [])
      && (data.completedStages.Some? ==> p.completedStages == data.completedStages.value)
  {
  }

  /** Updating a stored profile overwrites every supplied field with its new
      value, keeps every field not supplied, including the creation date,
      and stamps the update time. */
  lemma ProfileUpdateKeepsUnsupplied(p: ProfileDoc, data: ProfileUpdate, now: int)
    ensures var q := UpsertedProfile(Some(p), data, now);
      && q.createdAt == p.createdAt && q.updatedAt == now
      && (data.name.None? ==> q.name == p.name) && (data.name.Some? ==> q.name == data.name.value)
      && (data.email.None? ==> q.email == p.email) && (data.email.Some? ==> q.email == data.email.value)
      && (data.languagePreference.None? ==> q.languagePreference == p.languagePreference)
      && (data.languagePreference.Some? ==> q.languagePreference == data.languagePreference.value)
      && (data.careerGoals.None? ==> q.careerGoals == p.careerGoals)
      && (data.careerGoals.Some? ==> q.careerGoals == data.careerGoals.value)
      && (data.completedStages.None? ==> q.completedStages == p.completedStages)
      && (data.completedStages.Some? ==> q.completedStages == data.completedStages.value)
  {
  }

  /** Upserting the same fields twice at the same time is the same as once. */
  lemma UpsertIdempotent(existing: Option<ProfileDoc>, data: ProfileUpdate, now: int)
    ensures UpsertedProfile(Some(UpsertedProfile(existing, data, now)), data, now)
            == UpsertedProfile(existing, data, now)
  {
  }

  /** `updateLanguagePreference` is an upsert carrying only the language. */
  function LanguageOnly(language: Language): ProfileUpdate {
    ProfileUpdate(None, None, Some(language), None, None)
  }

  /** Changing the language of a stored profile changes nothing else but the
      update time. */
  lemma LanguageUpdateOnlyLanguage(p: ProfileDoc, language: Language, now: int)
    ensures UpsertedProfile(Some(p), LanguageOnly(language), now)
            == p.(languagePreference := language, updatedAt := now)
  {
  }

  /** The history after `saveChatMessage`: the stored one with the message
      appended and `updatedAt` refreshed, or a new one holding just it. */
  function AppendedHistory(existing: Option<ChatHistory>, uid: string, historyId: string,
                           message: ChatMessage, now: int): ChatHistory
  {
    if existing.Some? then existing.value.(messages := existing.value.messages + [message], updatedAt := now)
    else ChatHistory(historyId, uid, [message], None, now, now)
  }

  /** Appending keeps the earlier messages in order, then the new one last;
      nothing else but the update time changes. */
  lemma AppendKeepsHistory(h: ChatHistory, uid: string, historyId: string, message: ChatMessage, now: int)
    ensures var a := AppendedHistory(Some(h), uid, historyId, message, now);
      && |a.messages| == |h.messages| + 1
      && a.messages[..|h.messages|] == h.messages
      && a.messages[|h.messages|] == message
      && a == h.(messages := a.messages, updatedAt := now)
  {
    var a := AppendedHistory(Some(h), uid, historyId, message, now);
    assert a.messages[..|h.messages|] == h.messages;
  }

  /** A first message creates the history under the given id, owned by the
      user, holding exactly that message. */
  lemma FirstMessageCreatesHistory(uid: string, historyId: string, message: ChatMessage, now: int)
    ensures var a := AppendedHistory(None, uid, historyId, message, now);
      && a.id == historyId && a.userId == uid && a.messages == [message]
      && a.createdAt == a.updatedAt == now
  {
  }

  /** The input of `saveCareerGoalData`. */
  datatype CareerGoalInput = CareerGoalInput(
    careerGoal: string,
    stages: seq<RoadmapStage>,
    skillLevel: string,
    language: Option<Language>,
    updatedAt: int)

  /** The stored `careerGoal/data` document. */
  datatype CareerGoalDoc = CareerGoalDoc(
    careerGoal: string,
    stages: seq<RoadmapStage>,
    skillLevel: string,
    language: Option<Language>,
    updatedAt: int,
    createdAt: int)

  /** `set({...data, createdAt: now}, { merge: true })`: every supplied field
      overwrites, an absent language keeps the stored one, and `createdAt` is
      rewritten on every save. */
  function MergedCareerGoal(existing: Option<CareerGoalDoc>, data: CareerGoalInput, now: int): CareerGoalDoc {
    var language := if data.language.Some? || existing.None? then data.language else existing.value.language;
    CareerGoalDoc(data.careerGoal, data.stages, data.skillLevel, language, data.updatedAt, now)
  }

  /** Merging writes the input's fields, keeps a stored language the input
      lacks, and stamps `createdAt` with the save time even when a record
      existed before. */
  lemma CareerGoalMerge(existing: Option<CareerGoalDoc>, data: CareerGoalInput, now: int)
    ensures var d := MergedCareerGoal(existing, data, now);
      && d.careerGoal == data.careerGoal && d.stages == data.stages && d.skillLevel == data.skillLevel
      && d.updatedAt == data.updatedAt && d.createdAt == now
      && (data.language.Some? ==> d.language == data.language)
      && (data.language.None? && existing.Some? ==> d.language == existing.value.language)
      && (data.language.None? && existing.None? ==> d.language.None?)
  {
  }

  // ---------------------------------------------------------------------
  // The store and the service
  // ---------------------------------------------------------------------

  /** The whole database: `users/{uid}/profile/main`, `users/{uid}/roadmaps`,
      `users/{uid}/history`, `users/{uid}/opportunities` and
      `users/{uid}/careerGoal/data`. */
  datatype Database = Database(
    profiles: map<string, ProfileDoc>,
    roadmaps: map<string, map<string, Roadmap>>,
    histories: map<string, map<string, ChatHistory>>,
    opportunities: map<string, map<string, Opportunity>>,
    careerGoals: map<string, CareerGoalDoc>)

  /** Every document is stored under its own id, and roadmaps and histories
      under their owner's uid. */
  predicate Consistent(db: Database) {
    && (forall uid, id :: uid in db.roadmaps && id in db.roadmaps[uid] ==>
          db.roadmaps[uid][id].id == id && db.roadmaps[uid][id].userId == uid)
    && (forall uid, id :: uid in db.histories && id in db.histories[uid] ==>
          db.histories[uid][id].id == id && db.histories[uid][id].userId == uid)
    && (forall uid, id :: uid in db.opportunities && id in db.opportunities[uid] ==>
          db.opportunities[uid][id].id == id)
  }

  function MapGet<T>(m: map<string, T>, key: string): (r: Option<T>)
    ensures r.None? <==> key !in m
    ensures r.Some? ==> r.value == m[key]
  {
    if key in m then Some(m[key]) else None
  }

  /** The database after `saveChatMessage` stored message `m` (stamped at
      `m.timestamp`) in history `historyId` of user `uid`. */
  function SavedMessage(db: Database, uid: string, historyId: string, m: ChatMessage): Database {
    db.(histories := Put(db.histories, uid, historyId,
        AppendedHistory(Lookup(db.histories, uid, historyId), uid, historyId, m, m.timestamp)))
  }

  /** Saving a message writes the appended history under its id and
      touches no other history and no other collection. */
  lemma SavedMessageWritesOne(db: Database, uid: string, historyId: string, m: ChatMessage)
    ensures var after := SavedMessage(db, uid, historyId, m);
      && Lookup(after.histories, uid, historyId)
         == Some(AppendedHistory(Lookup(db.histories, uid, historyId), uid, historyId, m, m.timestamp))
      && after == db.(histories := after.histories)
    ensures forall u, h :: (u != uid || h != historyId) ==>
      Lookup(SavedMessage(db, uid, historyId, m).histories, u, h) == Lookup(db.histories, u, h)
  {
    var after := SavedMessage(db, uid, historyId, m);
    forall u, h | u != uid || h != historyId
      ensures Lookup(after.histories, u, h) == Lookup(db.histories, u, h)
    {
      if u == uid {
        assert Docs(after.histories, u) == Docs(db.histories, u)[historyId := Docs(after.histories, u)[historyId]];
      }
    }
  }

  /** Saving a message keeps the store consistent. */
  lemma SavedMessageConsistent(db: Database, uid: string, historyId: string, m: ChatMessage)
    requires Consistent(db)
    ensures Consistent(SavedMessage(db, uid, historyId, m))
  {
  }

  class FirestoreService {
    var db: Database

    ghost predicate Valid()
      reads this
    {
      Consistent(db)
    }

    constructor ()
      ensures Valid()
      ensures db == Database(map[], map[], map[], map[], map[])
    {
      db := Database(map[], map[], map[], map[], map[]);
    }

    /** `upsertUserProfile`: returns the profile as stored afterwards. */
    method UpsertUserProfile(uid: string, data: ProfileUpdate, now: int) returns (p: UserProfile)
      requires Valid()
      modifies this
      ensures Valid()
      ensures db == old(db).(profiles := old(db).profiles[uid := UpsertedProfile(MapGet(old(db).profiles, uid), data, now)])
      ensures p == UserProfile(uid, db.profiles[uid])
    {
      var existing := MapGet(db.profiles, uid);
      db := db.(profiles := db.profiles[uid := UpsertedProfile(existing, data, now)]);
      p := UserProfile(uid, db.profiles[uid]);
    }

    /** `getUserProfile`: null exactly when no profile is stored. */
    method GetUserProfile(uid: string) returns (p: Option<UserProfile>)
      ensures p.None? <==> uid !in db.profiles
      ensures p.Some? ==> p.value == UserProfile(uid, db.profiles[uid])
    {
      if uid in db.profiles {
        p := Some(UserProfile(uid, db.profiles[uid]));
      } else {
        p := None;
      }
    }

    /** `saveRoadmap`: stores a new roadmap under the fresh id and returns it. */
    method SaveRoadmap(uid: string, careerGoal: string, stages: seq<RoadmapStage>, freshId: string, now: int)
      returns (r: Roadmap)
      requires Valid()
      modifies this
      ensures Valid()
      ensures r == Roadmap(freshId, uid, careerGoal, stages, now, now)
      ensures db == old(db).(roadmaps := Put(old(db).roadmaps, uid, freshId, r))
    {
      r := Roadmap(freshId, uid, careerGoal, stages, now, now);
      db := db.(roadmaps := Put(db.roadmaps, uid, freshId, r));
    }

    /** `getUserRoadmaps`: the user's roadmaps, newest first. */
    method GetUserRoadmaps(uid: string) returns (list: seq<Roadmap>)
      ensures Descending(list, (r: Roadmap) => r.createdAt)
      ensures |list| == |Docs(db.roadmaps, uid)|
      ensures forall id :: id in Docs(db.roadmaps, uid) ==> Docs(db.roadmaps, uid)[id] in list
      ensures forall i :: 0 <= i < |list| ==> list[i] in Docs(db.roadmaps, uid).Values
    {
      list := NewestFirst(Docs(db.roadmaps, uid), (r: Roadmap) => r.createdAt);
    }

    /** `getRoadmap`: null exactly when the roadmap is absent. */
    method GetRoadmap(uid: string, roadmapId: string) returns (r: Option<Roadmap>)
      ensures r == Lookup(db.roadmaps, uid, roadmapId)
      ensures r.None? <==> roadmapId !in Docs(db.roadmaps, uid)
    {
      r := Lookup(db.roadmaps, uid, roadmapId);
    }

    /** `deleteRoadmap`: removes that roadmap of that user only. */
    method DeleteRoadmap(uid: string, roadmapId: string)
      requires Valid()
      modifies this
      ensures Valid()
      ensures db == old(db).(roadmaps := Remove(old(db).roadmaps, uid, roadmapId))
    {
      db := db.(roadmaps := Remove(db.roadmaps, uid, roadmapId));
    }

    /** `saveChatMessage`: the message gets the fresh id and the time; it is
        appended to the history, which is created if absent. */
    method SaveChatMessage(uid: string, historyId: string, role: Role, content: string, language: Language,
                           freshId: string, now: int)
      returns (m: ChatMessage)
      requires Valid()
      modifies this
      ensures Valid()
      ensures m == ChatMessage(freshId, role, content, language, now)
      ensures db == SavedMessage(old(db), uid, historyId, m)
    {
      m := ChatMessage(freshId, role, content, language, now);
      var existing := Lookup(db.histories, uid, historyId);
      db := db.(histories := Put(db.histories, uid, historyId, AppendedHistory(existing, uid, historyId, m, now)));
    }

    /** `getChatHistory`: null exactly when the history is absent. */
    method GetChatHistory(uid: string, historyId: string) returns (h: Option<ChatHistory>)
      ensures h == Lookup(db.histories, uid, historyId)
      ensures h.None? <==> historyId !in Docs(db.histories, uid)
    {
      h := Lookup(db.histories, uid, historyId);
    }

    /** `getAllChatHistories`: the user's 20 most recently updated histories,
        most recent first. */
    method GetAllChatHistories(uid: string) returns (list: seq<ChatHistory>)
      ensures Descending(list, (h: ChatHistory) => h.updatedAt)
      ensures |list| == if |Docs(db.histories, uid)| < 20 then |Docs(db.histories, uid)| else 20
      ensures forall i :: 0 <= i < |list| ==> list[i] in Docs(db.histories, uid).Values
      ensures forall id :: id in Docs(db.histories, uid) ==>
                Docs(db.histories, uid)[id] in list
                || (|list| == 20 && Docs(db.histories, uid)[id].updatedAt <= list[19].updatedAt)
    {
      var key := (h: ChatHistory) => h.updatedAt;
      var all := NewestFirst(Docs(db.histories, uid), key);
      list := Limit(all, 20);
      forall id | id in Docs(db.histories, uid)
        ensures Docs(db.histories, uid)[id] in list
                || (|list| == 20 && Docs(db.histories, uid)[id].updatedAt <= list[19].updatedAt)
      {
        if Docs(db.histories, uid)[id] !in list {
          LimitKeepsLargest(all, key, 20, Docs(db.histories, uid)[id]);
        }
      }
    }

    /** `saveOpportunity`: stores the draft under the fresh id with the time. */
    method SaveOpportunity(uid: string, draft: OpportunityDraft, freshId: string, now: int)
      returns (o: Opportunity)
      requires Valid()
      modifies this
      ensures Valid()
      ensures o == Opportunity(freshId, draft, now)
      ensures db == old(db).(opportunities := Put(old(db).opportunities, uid, freshId, o))
    {
      o := Opportunity(freshId, draft, now);
      db := db.(opportunities := Put(db.opportunities, uid, freshId, o));
    }

    /** `getUserOpportunities`: the user's opportunities, newest first. */
    method GetUserOpportunities(uid: string) returns (list: seq<Opportunity>)
      ensures Descending(list, (o: Opportunity) => o.createdAt)
      ensures |list| == |Docs(db.opportunities, uid)|
      ensures forall id :: id in Docs(db.opportunities, uid) ==> Docs(db.opportunities, uid)[id] in list
      ensures forall i :: 0 <= i < |list| ==> list[i] in Docs(db.opportunities, uid).Values
    {
      list := NewestFirst(Docs(db.opportunities, uid), (o: Opportunity) => o.createdAt);
    }

    /** `deleteOpportunity`: removes that opportunity of that user only. */
    method DeleteOpportunity(uid: string, opportunityId: string)
      requires Valid()
      modifies this
      ensures Valid()
      ensures db == old(db).(opportunities := Remove(old(db).opportunities, uid, opportunityId))
    {
      db := db.(opportunities := Remove(db.opportunities, uid, opportunityId));
    }

    /** `updateLanguagePreference`: an upsert with only the language. */
    method UpdateLanguagePreference(uid: string, language: Language, now: int)
      requires Valid()
      modifies this
      ensures Valid()
      ensures db == old(db).(profiles := old(db).profiles[uid := UpsertedProfile(MapGet(old(db).profiles, uid), LanguageOnly(language), now)])
    {
      var _ := UpsertUserProfile(uid, LanguageOnly(language), now);
    }

    /** `saveCareerGoalData`: a merging write of `careerGoal/data`. */
    method SaveCareerGoalData(uid: string, data: CareerGoalInput, now: int)
      requires Valid()
      modifies this
      ensures Valid()
      ensures db == old(db).(careerGoals := old(db).careerGoals[uid := MergedCareerGoal(MapGet(old(db).careerGoals, uid), data, now)])
    {
      db := db.(careerGoals := db.careerGoals[uid := MergedCareerGoal(MapGet(db.careerGoals, uid), data, now)]);
    }

    /** `getCareerGoalData`: null exactly when no record is stored. */
    method GetCareerGoalData(uid: string) returns (d: Option<CareerGoalDoc>)
      ensures d == MapGet(db.careerGoals, uid)
      ensures d.None? <==> uid !in db.careerGoals
    {
      d := MapGet(db.careerGoals, uid);
    }
  }
}
