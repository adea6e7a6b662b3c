/** The tutor endpoints (backend/src/controllers/tutorController.ts):
    `explain`, `chat` and `getHistory`. The generated text is a parameter
    (None when the generation service threw); the store is the document
    store of module Firestore; fresh ids and clock readings are parameters. */
module Tutor {
  import opened Common
  import opened Domain
  import opened Firestore

  datatype Payload =
    | Explanation(explanation: string, language: Language)
    | ChatReply(response: string, historyId: Option<string>)
    | MessageList(messages: seq<ChatMessage>)
    | HistoryList(histories: seq<ChatHistory>)
    | NoData

  /** The JSON body sent and its status. */
  datatype Response = Response(status: int, success: bool, data: Payload, message: Option<string>, error: Option<string>)

  const ExplainedMessage: string := "Concept explained successfully"
  const ExplainFailed: string := "Failed to generate explanation"
  const ChatFailed: string := "Failed to generate response"
  const NotAuthenticated: string := "User not authenticated"
  const HistoryFailed: string := "Failed to fetch chat history"

  function Ok200(data: Payload): Response {
    Response(200, true, data, None, None)
  }

  function Failed(status: int, error: string): (r: Response)
    ensures !r.success && r.status == status && r.error == Some(error)
  {
    Response(status, false, NoData, None, Some(error))
  }

  /** The database after one exchange: the user's message, then the
      assistant's, saved to the same history. */
  function Exchange(db: Database, uid: string, historyId: string, question: ChatMessage, answer: ChatMessage): Database {
    SavedMessage(SavedMessage(db, uid, historyId, question), uid, historyId, answer)
  }

  /** An exchange appends the question and then the answer to the history
      (which starts empty when it did not exist), and touches no other
      history and no other collection. */
  lemma ExchangeAppendsPair(db: Database, uid: string, historyId: string, question: ChatMessage, answer: ChatMessage)
    ensures var after := Exchange(db, uid, historyId, question, answer);
      var before := Lookup(db.histories, uid, historyId);
      && Lookup(after.histories, uid, historyId).Some?
      && Lookup(after.histories, uid, historyId).value.messages
         == (if before.Some? then before.value.messages else []) + [question, answer]
      && after == db.(histories := after.histories)
    ensures forall u, h :: (u != uid || h != historyId) ==>
      Lookup(Exchange(db, uid, historyId, question, answer).histories, u, h) == Lookup(db.histories, u, h)
  {
    var mid := SavedMessage(db, uid, historyId, question);
    SavedMessageWritesOne(db, uid, historyId, question);
    SavedMessageWritesOne(mid, uid, historyId, answer);
    var before := Lookup(db.histories, uid, historyId);
    var first := AppendedHistory(before, uid, historyId, question, question.timestamp);
    var second := AppendedHistory(Some(first), uid, historyId, answer, answer.timestamp);
    assert second.messages == first.messages + [answer];
    assert first.messages == (if before.Some? then before.value.messages else []) + [question];
  }

  /** An exchange keeps the store consistent. */
  lemma ExchangeConsistent(db: Database, uid: string, historyId: string, question: ChatMessage, answer: ChatMessage)
    requires Consistent(db)
    ensures Consistent(Exchange(db, uid, historyId, question, answer))
  {
    SavedMessageConsistent(db, uid, historyId, question);
    SavedMessageConsistent(SavedMessage(db, uid, historyId, question), uid, historyId, answer);
  }

  /** `explain`: on success a signed-in user gets a fresh history holding
      the concept and the explanation; the response carries both. */
  method Explain(store: FirestoreService, uid: Option<string>, concept: string, language: Language,
                 generated: Option<string>, freshHistoryId: string,
                 questionId: string, answerId: string, t1: int, t2: int)
    returns (res: Response)
    requires store.Valid()
    modifies store
    ensures store.Valid()
    ensures generated.None? ==> res == Failed(500, ExplainFailed) && store.db == old(store.db)
    ensures generated.Some? ==>
      res == Response(200, true, Explanation(generated.value, language), Some(ExplainedMessage), None)
    ensures generated.Some? && !Given(uid) ==> store.db == old(store.db)
    ensures generated.Some? && Given(uid) ==>
      store.db == Exchange(old(store.db), uid.value, freshHistoryId,
                           ChatMessage(questionId, User, concept, language, t1),
                           ChatMessage(answerId, Assistant, generated.value, language, t2))
  {
    if generated.None? {
      return Failed(500, ExplainFailed);
    }
    var explanation := generated.value;
    if Given(uid) {
      var q := store.SaveChatMessage(uid.value, freshHistoryId, User, concept, language, questionId, t1);
      var a := store.SaveChatMessage(uid.value, freshHistoryId, Assistant, explanation, language, answerId, t2);
    }
    res := Response(200, true, Explanation(explanation, language), Some(ExplainedMessage), None);
  }

  /** The history id `chat` writes to: the supplied one, else a fresh one. */
  function ChatHistoryId(historyId: Option<string>, freshHistoryId: string): (id: string)
    ensures Given(historyId) ==> id == historyId.value
    ensures !Given(historyId) ==> id == freshHistoryId
  {
    if Given(historyId) then historyId.value else freshHistoryId
  }

  /** `chat`: the language defaults to English; a signed-in user's exchange
      is saved to the supplied history (or a fresh one) whose id is
      returned; an anonymous user's is not saved and no id is returned. */
  method Chat(store: FirestoreService, uid: Option<string>, message: string, language: Option<Language>,
              historyId: Option<string>, generated: Option<string>, freshHistoryId: string,
              questionId: string, answerId: string, t1: int, t2: int)
    returns (res: Response)
    requires store.Valid()
    modifies store
    ensures store.Valid()
    ensures generated.None? ==> res == Failed(500, ChatFailed) && store.db == old(store.db)
    ensures generated.Some? && !Given(uid) ==>
      res == Ok200(ChatReply(generated.value, None)) && store.db == old(store.db)
    ensures generated.Some? && Given(uid) ==>
      var id := ChatHistoryId(historyId, freshHistoryId);
      var lang := OrElse(language, En);
      && res == Ok200(ChatReply(generated.value, Some(id)))
      && store.db == Exchange(old(store.db), uid.value, id,
                              ChatMessage(questionId, User, message, lang, t1),
                              ChatMessage(answerId, Assistant, generated.value, lang, t2))
  {
    var lang := OrElse(language, En);
    if generated.None? {
      return Failed(500, ChatFailed);
    }
    var response := generated.value;
    if Given(uid) {
      var id := ChatHistoryId(historyId, freshHistoryId);
      var q := store.SaveChatMessage(uid.value, id, User, message, lang, questionId, t1);
      var a := store.SaveChatMessage(uid.value, id, Assistant, response, lang, answerId, t2);
      return Ok200(ChatReply(response, Some(id)));
    }
    res := Ok200(ChatReply(response, None));
  }

  // ---------------------------------------------------------------------
  // getHistory
  // ---------------------------------------------------------------------

  /** Oldest message first. */
  predicate ByTimestamp(ms: seq<ChatMessage>) {
    forall i, j :: 0 <= i < j < |ms| ==> ms[i].timestamp <= ms[j].timestamp
  }

  /** The messages stamped `t`, in their order: a sort is stable exactly
      when it keeps each of these subsequences. */
  function WithStamp(ms: seq<ChatMessage>, t: int): (r: seq<ChatMessage>)
    ensures |r| <= |ms|
  {
    if ms == [] then [] else (if ms[0].timestamp == t then [ms[0]] else []) + WithStamp(ms[1..], t)
  }

  lemma {:induction false} WithStampAppend(a: seq<ChatMessage>, b: seq<ChatMessage>, t: int)
    ensures WithStamp(a + b, t) == WithStamp(a, t) + WithStamp(b, t)
  {
    if a != [] {
      assert (a + b)[1..] == a[1..] + b;
      WithStampAppend(a[1..], b, t);
    } else {
      assert a + b == b;
    }
  }

  /** Exchanging two neighbours stamped differently keeps the messages of
      every stamp in their order. */
  lemma NeighbourSwapKeepsStamps(s: seq<ChatMessage>, j: int, t: int)
    requires 0 < j < |s| && s[j - 1].timestamp != s[j].timestamp
    ensures WithStamp(s[j - 1 := s[j]][j := s[j - 1]], t) == WithStamp(s, t)
  {
    var s' := s[j - 1 := s[j]][j := s[j - 1]];
    var pre, post := s[..j - 1], s[j + 1..];
    assert s == pre + [s[j - 1], s[j]] + post;
    assert s' == pre + [s[j], s[j - 1]] + post;
    WithStampAppend(pre + [s[j - 1], s[j]], post, t);
    WithStampAppend(pre, [s[j - 1], s[j]], t);
    WithStampAppend(pre + [s[j], s[j - 1]], post, t);
    WithStampAppend(pre, [s[j], s[j - 1]], t);
    assert [s[j - 1], s[j]][1..] == [s[j]];
    assert [s[j], s[j - 1]][1..] == [s[j - 1]];
  }

  /** `messages.sort((a, b) => timeA - timeB)`, in place. The sort is
      stable: messages with the same timestamp keep their stored order. */
  method SortByTimestamp(a: array<ChatMessage>)
    modifies a
    ensures ByTimestamp(a[..])
    ensures multiset(a[..]) == multiset(old(a[..]))
    ensures forall t :: WithStamp(a[..], t) == WithStamp(old(a[..]), t)
  {
    if a.Length == 0 {
      return;
    }
    var i := 1;
    while i < a.Length
      invariant 1 <= i <= a.Length
      invariant ByTimestamp(a[..i])
      invariant multiset(a[..]) == multiset(old(a[..]))
      invariant forall t :: WithStamp(a[..], t) == WithStamp(old(a[..]), t)
    {
      InsertIntoSorted(a, i);
      i := i + 1;
    }
    assert a[..i] == a[..];
  }

  /** One insertion step: moves `a[i]` left past the later messages before
      it, never past one with the same timestamp. */
  method InsertIntoSorted(a: array<ChatMessage>, i: int)
    requires 0 < i < a.Length && ByTimestamp(a[..i])
    modifies a
    ensures ByTimestamp(a[..i + 1])
    ensures multiset(a[..]) == multiset(old(a[..]))
    ensures forall t :: WithStamp(a[..], t) == WithStamp(old(a[..]), t)
  {
    var j := i;
    while j > 0 && a[j - 1].timestamp > a[j].timestamp
      invariant 0 <= j <= i
      invariant forall k, l :: 0 <= k < l <= i && k != j && l != j ==> a[k].timestamp <= a[l].timestamp
      invariant forall l :: j < l <= i ==> a[j].timestamp < a[l].timestamp
      invariant multiset(a[..]) == multiset(old(a[..]))
      invariant forall t :: WithStamp(a[..], t) == WithStamp(old(a[..]), t)
    {
      SwapNeighbours(a, j);
      j := j - 1;
    }
  }

  /** Exchanges `a[j - 1]` and `a[j]`, two messages stamped differently. */
  method SwapNeighbours(a: array<ChatMessage>, j: int)
    requires 0 < j < a.Length && a[j - 1].timestamp != a[j].timestamp
    modifies a
    ensures a[..] == old(a[..])[j - 1 := old(a[j])][j := old(a[j - 1])]
    ensures multiset(a[..]) == multiset(old(a[..]))
    ensures forall t :: WithStamp(a[..], t) == WithStamp(old(a[..]), t)
  {
    forall t
      ensures WithStamp(a[..][j - 1 := a[j]][j := a[j - 1]], t) == WithStamp(a[..], t)
    {
      NeighbourSwapKeepsStamps(a[..], j, t);
    }
    a[j - 1], a[j] := a[j], a[j - 1];
  }

  /** `getHistory`: 401 without a signed-in user; with a history id, that
      history's messages sorted oldest first (none when it is absent);
      without one, the user's histories as the store lists them; 500 when
      the store read fails. */
  method GetHistory(store: FirestoreService, uid: Option<string>, historyId: Option<string>, readFails: bool)
    returns (res: Response)
    ensures !Given(uid) ==> res == Failed(401, NotAuthenticated)
    ensures Given(uid) && readFails ==> res == Failed(500, HistoryFailed)
    ensures Given(uid) && !readFails && Given(historyId) ==>
      var h := Lookup(store.db.histories, uid.value, historyId.value);
      && res.status == 200 && res.success && res.data.MessageList?
      && ByTimestamp(res.data.messages)
      && multiset(res.data.messages) == multiset(if h.Some? then h.value.messages else [])
      && (forall t :: WithStamp(res.data.messages, t) == WithStamp(if h.Some? then h.value.messages else [], t))
    ensures Given(uid) && !readFails && !Given(historyId) ==>
      var docs := Docs(store.db.histories, uid.value);
      && res.status == 200 && res.success && res.data.HistoryList?
      && Descending(res.data.histories, (h: ChatHistory) => h.updatedAt)
      && |res.data.histories| == (if |docs| < 20 then |docs| else 20)
      && (forall i :: 0 <= i < |res.data.histories| ==> res.data.histories[i] in docs.Values)
      && (forall id :: id in docs ==>
            docs[id] in res.data.histories
            || (|res.data.histories| == 20 && docs[id].updatedAt <= res.data.histories[19].updatedAt))
  {
    if !Given(uid) {
      return Failed(401, NotAuthenticated);
    }
    if readFails {
      return Failed(500, HistoryFailed);
    }
    if Given(historyId) {
      var history := store.GetChatHistory(uid.value, historyId.value);
      var messages := if history.Some? then history.value.messages else [];
      var a := new ChatMessage[|messages|](i requires 0 <= i < |messages| => messages[i]);
      assert a[..] == messages;
      SortByTimestamp(a);
      res := Ok200(MessageList(a[..]));
    } else {
      var histories := store.GetAllChatHistories(uid.value);
      res := Ok200(HistoryList(histories));
    }
  }
}
