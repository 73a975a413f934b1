/**
 * The request handlers over the two collections of the document store: the
 * chat-message log and the knowledge-base table, both kept in natural
 * (insertion) order.
 */
module Server {
  import opened Wrappers
  import opened Entities
  import opened Escalation
  import opened Ordering
  import opened Analytics

  /** An HTTP error raised by a handler. */
  datatype HttpError = HttpError(status: int, detail: string)

  const ChatUnavailable: HttpError := HttpError(500, "Chat service unavailable")
  const UploadFailed: HttpError := HttpError(500, "Upload failed")
  const ItemNotFound: HttpError := HttpError(404, "Knowledge base item not found")

  const UploadedMessage: string := "Knowledge base updated successfully"
  const DeletedMessage: string := "Knowledge base item deleted successfully"

  /** The body of a successful upload. */
  datatype UploadReply = UploadReply(message: string, filename: string)

  /** Which of the two inserts of a chat turn reach the store. */
  datatype ChatWrites = BothStored | UserInsertFails | AiInsertFails

  /** The contents of the stored documents, in store order (`doc.get("content", "")`). */
  function Contents(items: seq<KnowledgeItem>): (r: seq<string>)
    ensures |r| == |items|
    ensures forall k :: 0 <= k < |items| ==> r[k] == items[k].content
  {
    if items == [] then [] else [items[0].content] + Contents(items[1..])
  }

  /** Some stored document has this id. */
  predicate HasId(items: seq<KnowledgeItem>, id: string)
  {
    exists k :: 0 <= k < |items| && items[k].id == id
  }

  /** No two stored documents share an id. */
  predicate UniqueIds(items: seq<KnowledgeItem>)
  {
    forall i, j :: 0 <= i < j < |items| ==> items[i].id != items[j].id
  }

  /** The position of the first document with this id, as `delete_one` finds it. */
  function FindId(items: seq<KnowledgeItem>, id: string): (r: Option<nat>)
    ensures r.None? <==> !HasId(items, id)
    ensures r.Some? ==> r.value < |items| && items[r.value].id == id
    ensures r.Some? ==> forall k :: 0 <= k < r.value ==> items[k].id != id
  {
    if items == [] then None
    else if items[0].id == id then Some(0)
    else
      match FindId(items[1..], id)
      case None =>
        assert forall k :: 1 <= k < |items| ==> items[k].id == items[1..][k - 1].id;
        None
      case Some(i) => Some(i + 1)
  }

  /** The messages of one session, in log order (`find({"session_id": ...})`). */
  function InSession(log: seq<ChatMessage>, sessionId: string): (r: seq<ChatMessage>)
    ensures |r| <= |log|
    ensures forall k :: 0 <= k < |r| ==> r[k].sessionId == sessionId
  {
    if log == [] then []
    else if log[0].sessionId == sessionId then [log[0]] + InSession(log[1..], sessionId)
    else InSession(log[1..], sessionId)
  }

  /** Selecting a session keeps each of its messages as often as the log holds it, and nothing else. */
  lemma {:induction false} InSessionCounts(log: seq<ChatMessage>, sessionId: string)
    ensures forall m :: multiset(InSession(log, sessionId))[m] == if m.sessionId == sessionId then multiset(log)[m] else 0
  {
    if log != [] {
      InSessionCounts(log[1..], sessionId);
      assert log == [log[0]] + log[1..];
    }
  }

  /** Selecting a session distributes over appending to the log. */
  lemma {:induction false} InSessionAppend(a: seq<ChatMessage>, b: seq<ChatMessage>, sessionId: string)
    ensures InSession(a + b, sessionId) == InSession(a, sessionId) + InSession(b, sessionId)
  {
    if a == [] {
      assert a + b == b;
    } else {
      InSessionAppend(a[1..], b, sessionId);
      var head := if a[0].sessionId == sessionId then [a[0]] else [];
      assert (a + b)[0] == a[0];
      assert (a + b)[1..] == a[1..] + b;
      assert InSession(a + b, sessionId) == head + InSession(a[1..] + b, sessionId);
      assert InSession(a, sessionId) == head + InSession(a[1..], sessionId);
      Associative(head, InSession(a[1..], sessionId), InSession(b, sessionId));
    }
  }

  /** Concatenation is associative. */
  lemma Associative<T>(x: seq<T>, y: seq<T>, z: seq<T>)
    ensures x + (y + z) == (x + y) + z
  {
  }

  /** A complete chat turn adds its two messages to the end of that session's conversation. */
  lemma InSessionAfterTurn(log: seq<ChatMessage>, user: ChatMessage, ai: ChatMessage)
    requires user.sessionId == ai.sessionId
    ensures InSession(log + [user, ai], user.sessionId) == InSession(log, user.sessionId) + [user, ai]
  {
    InSessionAppend(log, [user, ai], user.sessionId);
    assert [user, ai][1..] == [ai];
    assert InSession([ai], user.sessionId) == [ai] by {
      assert [ai][1..] == [];
    }
  }

  /** The key `sort("timestamp", 1)` orders by. */
  function Timestamp(m: ChatMessage): int { m.timestamp }

  /** The key `sort("uploaded_at", -1)` orders by. */
  function NewestFirst(item: KnowledgeItem): int { -item.uploadedAt }

  /** The user turn a chat request stores. */
  function UserTurn(request: ChatRequest, id: string, time: int): ChatMessage
  {
    ChatMessage(id, request.sessionId, request.message, User, time, false)
  }

  /** The assistant turn stored for a reply. */
  function AiTurn(request: ChatRequest, reply: AIReply, id: string, time: int): ChatMessage
  {
    ChatMessage(id, request.sessionId, reply.text, Ai, time, reply.escalated)
  }

  /** The reply computed for a request against a given knowledge base. */
  function ReplyTo(request: ChatRequest, knowledge: seq<KnowledgeItem>, knowledgeReadable: bool, provider: Provider): AIReply
  {
    AIResponse(request.message, request.sessionId, request.brandTone,
               if knowledgeReadable then Some(Contents(knowledge)) else None, provider)
  }

  /**
   * The document store as the handlers see it. Ids, timestamps, the provider, the
   * outcome of UTF-8 decoding and the success of each insert are parameters.
   */
  class SupportDesk {
    /** The `chat_messages` collection, oldest insert first. */
    var messages: seq<ChatMessage>
    /** The `knowledge_base` collection, oldest insert first. */
    var knowledge: seq<KnowledgeItem>

    /** Documents have distinct ids, and a user message is never flagged escalated. */
    ghost predicate Valid()
      reads this
    {
      UniqueIds(knowledge) &&
      forall k :: 0 <= k < |messages| && messages[k].sender == User ==> !messages[k].escalated
    }

    constructor ()
      ensures Valid()
      ensures messages == [] && knowledge == []
    {
      messages := [];
      knowledge := [];
    }

    /**
     * `POST /api/chat`: store the user turn, ask for a reply, store the assistant
     * turn, answer with the reply. A failed insert ends the request with HTTP 500
     * and keeps whatever was stored before it.
     */
    method Chat(request: ChatRequest, userId: string, userTime: int, aiId: string, aiTime: int,
                knowledgeReadable: bool, provider: Provider, writes: ChatWrites)
      returns (r: Result<ChatResponse, HttpError>)
      requires Valid()
      modifies this
      ensures Valid()
      ensures knowledge == old(knowledge)
      ensures writes == UserInsertFails ==> messages == old(messages) && r == Failure(ChatUnavailable)
      ensures writes == AiInsertFails ==>
        messages == old(messages) + [UserTurn(request, userId, userTime)] && r == Failure(ChatUnavailable)
      ensures writes == BothStored ==>
        var reply := ReplyTo(request, knowledge, knowledgeReadable, provider);
        messages == old(messages) + [UserTurn(request, userId, userTime), AiTurn(request, reply, aiId, aiTime)] &&
        r == Success(ChatResponse(reply.text, reply.escalated, request.sessionId))
    {
      if writes == UserInsertFails {
        return Failure(ChatUnavailable);
      }
      messages := messages + [UserTurn(request, userId, userTime)];
      var reply := ReplyTo(request, knowledge, knowledgeReadable, provider);
      if writes == AiInsertFails {
        return Failure(ChatUnavailable);
      }
      messages := messages + [AiTurn(request, reply, aiId, aiTime)];
      r := Success(ChatResponse(reply.text, reply.escalated, request.sessionId));
    }

    /**
     * `GET /api/chat/{session_id}`: every message of the session and no other, each
     * as often as it is stored, oldest first.
     */
    method History(sessionId: string) returns (h: seq<ChatMessage>)
      ensures forall i, j :: 0 <= i < j < |h| ==> h[i].timestamp <= h[j].timestamp
      ensures forall m :: multiset(h)[m] == if m.sessionId == sessionId then multiset(messages)[m] else 0
    {
      h := SortBy(InSession(messages, sessionId), Timestamp);
      InSessionCounts(messages, sessionId);
      assert SortedBy(h, Timestamp);
    }

    /** `POST /api/knowledge-base/upload`: a decoded file is appended as one new document. */
    method Upload(filename: string, decoded: Option<string>, contentType: string, id: string, now: int,
                  insertOk: bool)
      returns (r: Result<UploadReply, HttpError>)
      requires Valid()
      requires !HasId(knowledge, id)
      modifies this
      ensures Valid()
      ensures messages == old(messages)
      ensures decoded.Some? && insertOk ==>
        knowledge == old(knowledge) + [KnowledgeItem(id, filename, decoded.value, contentType, now)] &&
        r == Success(UploadReply(UploadedMessage, filename))
      ensures !(decoded.Some? && insertOk) ==> knowledge == old(knowledge) && r == Failure(UploadFailed)
    {
      if decoded.None? || !insertOk {
        return Failure(UploadFailed);
      }
      knowledge := knowledge + [KnowledgeItem(id, filename, decoded.value, contentType, now)];
      r := Success(UploadReply(UploadedMessage, filename));
    }

    /** `GET /api/knowledge-base`: every stored document, each once, newest upload first. */
    method ListKnowledge() returns (items: seq<KnowledgeItem>)
      ensures forall i, j :: 0 <= i < j < |items| ==> items[i].uploadedAt >= items[j].uploadedAt
      ensures multiset(items) == multiset(knowledge)
    {
      items := SortBy(knowledge, NewestFirst);
      assert SortedBy(items, NewestFirst);
    }

    /**
     * `DELETE /api/knowledge-base/{kb_id}`: the document with that id goes and every
     * other stays, in order; an unknown id is a 404 and changes nothing.
     */
    method Delete(id: string) returns (r: Result<string, HttpError>)
      requires Valid()
      modifies this
      ensures Valid()
      ensures messages == old(messages)
      ensures r.Success? <==> HasId(old(knowledge), id)
      ensures r.Success? ==>
        r.value == DeletedMessage &&
        (var i := FindId(old(knowledge), id).value; knowledge == old(knowledge)[..i] + old(knowledge)[i + 1..]) &&
        !HasId(knowledge, id) &&
        forall item :: item in knowledge <==> item in old(knowledge) && item.id != id
      ensures r.Failure? ==> r == Failure(ItemNotFound) && knowledge == old(knowledge)
    {
      match FindId(knowledge, id)
      case None =>
        r := Failure(ItemNotFound);
      case Some(i) =>
        ghost var before := knowledge;
        knowledge := knowledge[..i] + knowledge[i + 1..];
        assert forall k :: 0 <= k < |knowledge| ==> knowledge[k] == if k < i then before[k] else before[k + 1];
        r := Success(DeletedMessage);
    }

    /** `GET /api/analytics`: distinct sessions, those escalated, and those handled alone. */
    method GetAnalytics() returns (a: Snapshot)
      ensures a.totalConversations == |Sessions(messages)|
      ensures a.escalated == |EscalatedSessions(messages)|
      ensures a.aiHandled == |HandledSessions(messages)|
      ensures a.aiHandled + a.escalated == a.totalConversations
      ensures a.timeSavedMinutes == MinutesPerHandledSession * a.aiHandled
    {
      a := Summarize(messages);
      AiHandledCountsCalmSessions(messages);
    }
  }
}
