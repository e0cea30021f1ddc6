/**
 * `app/api/admin/chat/route.ts`: the administrator's assistant. The session
 * check, the keyword search over the stored pieces, the conversation window
 * sent with the question and the stored history. The prompt wording and the
 * language model are left out; the model's answer is an input.
 */
module AdminChat {
  import opened Wrappers
  import opened Text
  import opened Seqs

  /** What the `admin_session` cookie holds. */
  datatype SessionCookie = NoCookie | Malformed | Session(expiresAt: Option<int>)

  /** `isAuthenticated`: a readable session whose expiry lies after `now`. */
  predicate IsAuthenticated(cookie: SessionCookie, now: int)
  {
    cookie.Session? && cookie.expiresAt.Some? && cookie.expiresAt.value > now
  }

  /** A session is refused at and after its expiry, and accepted before it. */
  lemma SessionExpiry(expiresAt: int, now: int)
    ensures IsAuthenticated(Session(Some(expiresAt)), now) <==> now < expiresAt
    ensures !IsAuthenticated(NoCookie, now) && !IsAuthenticated(Malformed, now)
    ensures !IsAuthenticated(Session(None), now)
  {
  }

  // -------------------------------------------------------------- search

  /** A stored piece, as far as the search reads it. */
  datatype StoredDoc = StoredDoc(content: string, title: string)

  datatype SearchResult = SearchResult(content: string, source: string)

  /** The case-blind keyword test on a piece's content or title. */
  predicate Matches(query: string, doc: StoredDoc)
  {
    Contains(ToLower(doc.content), ToLower(query)) || Contains(ToLower(doc.title), ToLower(query))
  }

  function MatchesQuery(query: string): StoredDoc -> bool
  {
    (doc: StoredDoc) => Matches(query, doc)
  }

  function Excerpt(doc: StoredDoc): SearchResult
  {
    SearchResult(Take(doc.content, 500), doc.title)
  }

  /**
   * `searchDocuments`: the first three matching pieces, each cut to 500
   * characters and named by its title; an unreadable store gives none.
   */
  function SearchDocuments(stored: Option<seq<StoredDoc>>, query: string): (r: seq<SearchResult>)
    ensures |r| <= 3
    ensures stored.None? ==> r == []
    ensures stored.Some? ==>
      var hits := Filter(stored.value, MatchesQuery(query));
      && |r| == (if |hits| <= 3 then |hits| else 3)
      && forall k :: 0 <= k < |r| ==>
           && Matches(query, hits[k]) && hits[k] in stored.value
           && r[k].source == hits[k].title
           && r[k].content == Take(hits[k].content, 500)
  {
    match stored
    case None => []
    case Some(docs) =>
      var top := Take(Filter(docs, MatchesQuery(query)), 3);
      seq(|top|, k requires 0 <= k < |top| => Excerpt(top[k]))
  }

  /** A piece whose content holds the query, in any ASCII case, is a hit. */
  lemma OccurrenceMatches(query: string, doc: StoredDoc)
    requires Contains(doc.content, query) || Contains(doc.title, query)
    ensures Matches(query, doc)
  {
    if Contains(doc.content, query) {
      ContainsLowered(doc.content, query);
    } else {
      ContainsLowered(doc.title, query);
    }
  }

  /** With fewer than three hits in the store, every hit is returned. */
  lemma FewHitsAllReturned(docs: seq<StoredDoc>, query: string, doc: StoredDoc)
    requires doc in docs && Matches(query, doc)
    requires Count(docs, MatchesQuery(query)) <= 3
    ensures Excerpt(doc) in SearchDocuments(Some(docs), query)
  {
    FilterCount(docs, MatchesQuery(query));
    var hits := Filter(docs, MatchesQuery(query));
    var i :| 0 <= i < |docs| && docs[i] == doc;
    assert doc in hits;
    var k :| 0 <= k < |hits| && hits[k] == doc;
    assert SearchDocuments(Some(docs), query)[k] == Excerpt(doc);
  }

  // ------------------------------------------------------------- prompt

  /** `contextParts`: a heading, then a label and the content for each result. */
  function ContextParts(docs: seq<SearchResult>): (parts: seq<string>)
    ensures docs == [] ==> parts == []
    ensures docs != [] ==>
      && |parts| == 1 + 2 * |docs|
      && parts[0] == "Релевантная информация из загруженных документов:"
      && forall k :: 0 <= k < |docs| ==>
           parts[1 + 2 * k] == "\n[Документ " + NatToString(k + 1) + ": " + docs[k].source + "]"
           && parts[2 + 2 * k] == docs[k].content
  {
    if docs == [] then []
    else ["Релевантная информация из загруженных документов:"] + DocParts(docs, 0)
  }

  function DocParts(docs: seq<SearchResult>, from: nat): (parts: seq<string>)
    requires from <= |docs|
    ensures |parts| == 2 * (|docs| - from)
    ensures forall k :: from <= k < |docs| ==>
      parts[2 * (k - from)] == "\n[Документ " + NatToString(k + 1) + ": " + docs[k].source + "]"
      && parts[2 * (k - from) + 1] == docs[k].content
    decreases |docs| - from
  {
    if from == |docs| then []
    else
      var tag := "\n[Документ " + NatToString(from + 1) + ": " + docs[from].source + "]";
      [tag, docs[from].content] + DocParts(docs, from + 1)
  }

  /** A message of the request's `history`. */
  datatype ChatMessage = ChatMessage(role: string, content: string)

  function Line(m: ChatMessage): string
  {
    (if m.role == "user" then "User" else "Assistant") + ": " + m.content
  }

  /** `history?.slice(-5).map(…).join('\n')`: absent when the request has no history. */
  function ConversationContext(history: Option<seq<ChatMessage>>): (r: Option<string>)
    ensures history.None? <==> r.None?
    ensures history == Some([]) ==> r == Some("")
    ensures history.Some? && |history.value| == 1 ==> r == Some(Line(history.value[0]))
  {
    match history
    case None => None
    case Some(h) =>
      var window := LastN(h, 5);
      Some(Join(seq(|window|, k requires 0 <= k < |window| => Line(window[k])), "\n"))
  }

  /** A message added to a history of fewer than five becomes one more line of the context. */
  lemma ContextAppend(h: seq<ChatMessage>, m: ChatMessage)
    requires h != [] && |h| < 5
    ensures ConversationContext(Some(h + [m])).value == ConversationContext(Some(h)).value + "\n" + Line(m)
  {
    var a := seq(|h|, k requires 0 <= k < |h| => Line(h[k]));
    var b := seq(|h + [m]|, k requires 0 <= k < |h + [m]| => Line((h + [m])[k]));
    assert b == a + [Line(m)];
    JoinSnoc(a, Line(m), "\n");
  }

  /** Messages before the last five never reach the prompt. */
  lemma OnlyLastFiveCount(older: seq<ChatMessage>, recent: seq<ChatMessage>)
    requires |recent| == 5
    ensures ConversationContext(Some(older + recent)) == ConversationContext(Some(recent))
  {
    assert (older + recent)[|older + recent| - 5..] == recent;
  }

  // ------------------------------------------------------------ history

  /** An entry of `admin_chat_history.json`; only the assistant's entries carry sources. */
  datatype HistoryEntry = HistoryEntry(role: string, content: string, sources: Option<seq<string>>)

  const HistoryLimit: nat := 100

  /** The stored messages after one exchange: the two new entries appended, then the last hundred kept. */
  function Recorded(messages: seq<HistoryEntry>, question: string, answer: string, sources: seq<string>): (r: seq<HistoryEntry>)
    ensures |r| == if |messages| + 2 <= HistoryLimit then |messages| + 2 else HistoryLimit
    ensures r[|r| - 2..] == [HistoryEntry("user", question, None), HistoryEntry("assistant", answer, Some(sources))]
    ensures r[..|r| - 2] == messages[|messages| + 2 - |r|..]
  {
    var all := messages + [HistoryEntry("user", question, None), HistoryEntry("assistant", answer, Some(sources))];
    var r := LastN(all, HistoryLimit);
    assert r[|r| - 2..] == all[|all| - 2..];
    assert r[..|r| - 2] == all[|all| - |r|..|all| - 2];
    r
  }

  /** The stored history never exceeds the limit, and nothing is dropped while it has room. */
  lemma RecordedWithinLimit(messages: seq<HistoryEntry>, question: string, answer: string, sources: seq<string>)
    ensures |Recorded(messages, question, answer, sources)| <= HistoryLimit
    ensures |messages| + 2 <= HistoryLimit ==> Recorded(messages, question, answer, sources)[..|messages|] == messages
  {
  }

  /** The `{ messages: [] }` object of the history file, updated in place. */
  class ChatHistory {
    var messages: seq<HistoryEntry>

    constructor(stored: Option<seq<HistoryEntry>>)
      ensures messages == stored.GetOr([])
    {
      messages := stored.GetOr([]);
    }

    /** The `push` of both entries followed by `messages = messages.slice(-100)`. */
    method Record(question: string, answer: string, sources: seq<string>)
      modifies this
      ensures messages == Recorded(old(messages), question, answer, sources)
    {
      messages := messages + [HistoryEntry("user", question, None), HistoryEntry("assistant", answer, Some(sources))];
      messages := LastN(messages, HistoryLimit);
    }
  }

  // --------------------------------------------------------------- route

  datatype Reply = Failed(status: nat, error: string) | Answered(response: string, sources: seq<string>)

  function Sources(docs: seq<SearchResult>): (r: seq<string>)
    ensures |r| == |docs| && forall k :: 0 <= k < |r| ==> r[k] == docs[k].source
  {
    seq(|docs|, k requires 0 <= k < |docs| => docs[k].source)
  }

  /**
   * `POST`: `parsed` says whether the body was JSON (`request.json()` did
   * not throw), `message` is its field; `answer` is the model's reply,
   * absent when the call fails or answers with an error status. The history
   * written is returned with the reply.
   */
  method PostChat(
    cookie: SessionCookie, now: int, parsed: bool, message: Option<string>, stored: Option<seq<StoredDoc>>,
    answer: Option<string>, historyFile: Option<seq<HistoryEntry>>)
    returns (reply: Reply, history: Option<seq<HistoryEntry>>)
    ensures !IsAuthenticated(cookie, now) ==> reply == Failed(401, "Unauthorized") && history.None?
    ensures IsAuthenticated(cookie, now) && !parsed ==> reply == Failed(500, "Failed to generate response") && history.None?
    ensures IsAuthenticated(cookie, now) && parsed && !Truthy(message) ==> reply == Failed(400, "Message is required") && history.None?
    ensures IsAuthenticated(cookie, now) && parsed && Truthy(message) ==>
      var docs := SearchDocuments(stored, message.value);
      && (answer.None? ==> reply == Failed(500, "Failed to generate response") && history.None?)
      && (answer.Some? ==>
            && reply == Answered(answer.value, Sources(docs))
            && history == Some(Recorded(historyFile.GetOr([]), message.value, answer.value, Sources(docs))))
  {
    if !IsAuthenticated(cookie, now) {
      return Failed(401, "Unauthorized"), None;
    }
    if !parsed {
      return Failed(500, "Failed to generate response"), None;
    }
    if !Truthy(message) {
      return Failed(400, "Message is required"), None;
    }
    var relevant := SearchDocuments(stored, message.value);
    if answer.None? {
      return Failed(500, "Failed to generate response"), None;
    }
    var chatHistory := new ChatHistory(historyFile);
    chatHistory.Record(message.value, answer.value, Sources(relevant));
    history := Some(chatHistory.messages);
    reply := Answered(answer.value, Sources(relevant));
  }
}
