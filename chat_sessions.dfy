/** The chatbot's in-memory session store: sessions keyed by identifier,
    expiring two hours after their last activity, each holding its messages
    and a conversation context. Clocks are whole seconds, identifiers are
    fresh naturals, and the language model, the retrieval system and the
    query helpers are oracles whose results are parameters. */
module ChatSessions {
  import opened Wrappers
  import opened Strings

  /** A JSON-like value, as held in contexts and metadata dictionaries. */
  datatype Json = JNull | JBool(b: bool) | JNum(n: int) | JStr(s: string)
                | JList(items: seq<Json>) | JObj(fields: map<string, Json>)

  /** Python truthiness of a value. */
  predicate Truthy(j: Json)
  {
    match j
    case JNull => false
    case JBool(b) => b
    case JNum(n) => n != 0
    case JStr(s) => s != ""
    case JList(items) => items != []
    case JObj(fields) => fields != map[]
  }

  datatype Role = User | Assistant

  /** `ChatMessage`; `metadata` is `None` or a dictionary. */
  datatype Message = Message(id: nat, role: Role, content: string, timestamp: nat,
                             metadata: Option<map<string, Json>>)

  /** `ChatSession`; `context` is `None` or a dictionary. */
  datatype Session = Session(sessionId: nat, userId: Option<string>, createdAt: nat,
                             lastActivity: nat, messages: seq<Message>,
                             context: Option<map<string, Json>>)

  /** `timedelta(hours=2)`, in seconds. */
  const Timeout: nat := 7200

  const GreetingText: string :=
    "Xin chào! Tôi là trợ lý AI pháp lý của Việt Nam. \n"
    + "Tôi có thể giúp bạn:\n"
    + "• Tư vấn về các vấn đề pháp lý\n"
    + "• Giải thích các điều luật và quy định\n"
    + "• Hướng dẫn thủ tục hành chính\n"
    + "• Phân tích các tình huống pháp lý\n\n"
    + "Bạn có câu hỏi gì về pháp luật Việt Nam không?"

  const DisclaimerText: string :=
    "⚠️ **Lưu ý quan trọng**: \n"
    + "Thông tin tôi cung cấp chỉ mang tính tham khảo, dựa trên pháp luật Việt Nam hiện hành. \n"
    + "Để có tư vấn chính thức và xử lý vấn đề pháp lý cụ thể, bạn nên tham khảo ý kiến của luật sư có thẩm quyền."

  /** A session has expired when strictly more than the timeout has passed
      since its last activity. */
  predicate Expired(s: Session, now: nat)
  {
    now - s.lastActivity > Timeout
  }

  /** The session `create_session` makes. */
  function NewSession(id: nat, userId: Option<string>, greetingId: nat, now: nat): (s: Session)
    ensures s.sessionId == id && s.userId == userId && s.createdAt == now && s.lastActivity == now
    ensures |s.messages| == 1 && s.messages[0].role == Assistant && s.messages[0].content == GreetingText
    ensures s.context.Some? && s.context.value.Keys == {"legal_domain", "conversation_state"}
    ensures s.context.value["legal_domain"] == JNull && s.context.value["conversation_state"] == JStr("greeting")
  {
    Session(id, userId, now, now,
            [Message(greetingId, Assistant, GreetingText, now, Some(map["type" := JStr("greeting")]))],
            Some(map["legal_domain" := JNull, "conversation_state" := JStr("greeting")]))
  }

  /** The intents after which the legal disclaimer is added. */
  const SensitiveIntents: seq<string> := ["violation_inquiry", "procedure_inquiry", "obligation_inquiry"]

  /** `_should_add_disclaimer`. */
  function ShouldAddDisclaimer(intent: string): (r: bool)
    ensures r <==> intent == "violation_inquiry" || intent == "procedure_inquiry"
                   || intent == "obligation_inquiry"
  {
    intent in SensitiveIntents
  }

  // ----------------------------------------------------- conversation window

  function RoleLabel(role: Role): string
  {
    if role == User then "Người dùng" else "Trợ lý AI"
  }

  function ContextLine(m: Message): string
  {
    RoleLabel(m.role) + ": " + m.content
  }

  /** Where `messages[-max:-1]` starts: `-0` is `0`, and a window wider than
      the list starts at its head. */
  function WindowStart(n: nat, max: nat): nat
  {
    if max == 0 || max > n then 0 else n - max
  }

  /** `messages[-max:-1]` for a list of at least one message. */
  function RecentWindow(messages: seq<Message>, max: nat): (r: seq<Message>)
    requires |messages| >= 1
    ensures r == messages[WindowStart(|messages|, max)..|messages| - 1]
    ensures max >= 1 ==> |r| <= max - 1
    ensures max >= 1 && max <= |messages| ==> |r| == max - 1
    ensures |r| < |messages|
  {
    messages[WindowStart(|messages|, max)..|messages| - 1]
  }

  /** The rendered lines of the messages, in order. */
  function ContextLines(ms: seq<Message>): (r: seq<string>)
    ensures |r| == |ms|
    ensures forall i | 0 <= i < |ms| :: r[i] == ContextLine(ms[i])
  {
    if ms == [] then [] else ContextLines(ms[..|ms| - 1]) + [ContextLine(ms[|ms| - 1])]
  }

  /** `_get_conversation_context`: nothing for at most one message, else the
      lines of the window before the last message, joined by newlines. */
  method ConversationContext(session: Session, maxMessages: nat) returns (r: string)
    ensures |session.messages| <= 1 ==> r == ""
    ensures |session.messages| > 1 ==>
      r == Join(ContextLines(RecentWindow(session.messages, maxMessages)), "\n")
  {
    if |session.messages| <= 1 {
      return "";
    }
    var recent := session.messages[WindowStart(|session.messages|, maxMessages)..|session.messages| - 1];
    var parts := RenderLines(recent);
    r := Join(parts, "\n");
  }

  /** The line loop of `_get_conversation_context`. */
  method RenderLines(ms: seq<Message>) returns (parts: seq<string>)
    ensures parts == ContextLines(ms)
  {
    parts := [];
    var i := 0;
    while i < |ms|
      invariant 0 <= i <= |ms|
      invariant parts == ContextLines(ms[..i])
    {
      assert ms[..i + 1][..i] == ms[..i];
      parts := parts + [ContextLine(ms[i])];
      i := i + 1;
    }
    assert ms[..i] == ms;
  }

  // ------------------------------------------------------------- messages

  /** What `preprocess_vietnamese_query` returns that the store uses: the
      intent, the legal terms and, when present, the `legal_domain` entry. */
  datatype QueryAnalysis = QueryAnalysis(intent: string, legalTerms: seq<string>,
                                         legalDomain: Option<Json>)

  /** How `_generate_contextual_response` produced its text: through the
      retrieval system (with its sources and confidence) or, after a
      retrieval failure, from the fallback prompt. */
  datatype Reply = RagReply(content: string, sources: Json, confidence: Json)
                 | FallbackReply(content: string)

  /** `process_message`'s result dictionary. */
  datatype Outcome = Answered(sessionId: nat, response: string, metadata: map<string, Json>,
                              sessionContext: map<string, Json>)
                   | Failed(sessionId: nat, error: string)

  function OptionalString(s: Option<string>): Json
  {
    if s.Some? then JStr(s.value) else JNull
  }

  function StringList(items: seq<string>): Json
  {
    JList(seq(|items|, i requires 0 <= i < |items| => JStr(items[i])))
  }

  /** The response text: the model's answer, with the disclaimer appended on
      the retrieval path for sensitive intents. */
  function ResponseContent(reply: Reply, intent: string): string
  {
    if reply.RagReply? && ShouldAddDisclaimer(intent) then reply.content + "\n\n" + DisclaimerText
    else reply.content
  }

  function ResponseMetadata(reply: Reply, analysis: QueryAnalysis, domain: Option<string>): map<string, Json>
  {
    if reply.RagReply? then
      map["rag_sources" := reply.sources,
          "legal_domain" := (if analysis.legalDomain.Some? then analysis.legalDomain.value else JStr("general")),
          "intent" := JStr(analysis.intent), "confidence" := reply.confidence,
          "response_type" := JStr("rag_enhanced")]
    else
      map["response_type" := JStr("fallback"), "intent" := JStr(analysis.intent),
          "legal_domain" := OptionalString(domain)]
  }

  /** The context after step 2 of `process_message`. */
  function UpdatedContext(context: Option<map<string, Json>>, analysis: QueryAnalysis,
                          domain: Option<string>): (r: map<string, Json>)
    ensures r.Keys == (if context.Some? then context.value.Keys else {}) + {"legal_domain", "last_intent", "legal_terms"}
    ensures r["legal_domain"] == OptionalString(domain) && r["last_intent"] == JStr(analysis.intent)
    ensures r["legal_terms"] == StringList(analysis.legalTerms)
    ensures context.Some? ==> forall k | k in context.value && k != "legal_domain" && k != "last_intent"
                                           && k != "legal_terms" :: r[k] == context.value[k]
  {
    var c := if context.Some? then context.value else map[];
    c["legal_domain" := OptionalString(domain)]["last_intent" := JStr(analysis.intent)]
     ["legal_terms" := StringList(analysis.legalTerms)]
  }

  // ----------------------------------------------------------- the store

  /** `VietnameseLegalChatbot`'s session management. */
  class LegalChatbot {
    var sessions: map<nat, Session>
    /** The next fresh identifier, standing for `uuid.uuid4()`. */
    var nextId: nat

    ghost predicate Valid()
      reads this
    {
      forall k | k in sessions :: k < nextId && sessions[k].sessionId == k
    }

    constructor ()
      ensures Valid() && sessions == map[]
    {
      sessions := map[];
      nextId := 0;
    }

    /** `create_session`: one new session under a fresh identifier, holding
        the greeting. */
    method CreateSession(userId: Option<string>, now: nat) returns (id: nat)
      requires Valid()
      modifies this
      ensures Valid()
      ensures id !in old(sessions) && sessions.Keys == old(sessions).Keys + {id}
      ensures sessions == old(sessions)[id := NewSession(id, userId, old(nextId) + 1, now)]
      ensures |sessions[id].messages| == 1 && sessions[id].messages[0].role == Assistant
      ensures sessions[id].context == Some(map["legal_domain" := JNull, "conversation_state" := JStr("greeting")])
      ensures sessions[id].lastActivity == sessions[id].createdAt == now
    {
      id := nextId;
      var greetingId := nextId + 1;
      nextId := nextId + 2;
      sessions := sessions[id := NewSession(id, userId, greetingId, now)];
    }

    /** `get_session`: `None` for an unknown identifier; an expired session is
        deleted and `None` returned; otherwise the session, unchanged. */
    method GetSession(id: nat, now: nat) returns (r: Option<Session>)
      requires Valid()
      modifies this
      ensures Valid() && nextId == old(nextId)
      ensures id !in old(sessions) ==> r == None && sessions == old(sessions)
      ensures id in old(sessions) && Expired(old(sessions)[id], now) ==>
        r == None && sessions == old(sessions) - {id}
      ensures id in old(sessions) && !Expired(old(sessions)[id], now) ==>
        r == Some(old(sessions)[id]) && sessions == old(sessions)
    {
      if id in sessions {
        var session := sessions[id];
        if now - session.lastActivity > Timeout {
          sessions := sessions - {id};
          return None;
        }
        return Some(session);
      }
      return None;
    }

    /** `process_message`. A missing or expired session yields an error and
        no message. Otherwise the context is updated and the user message
        appended; when the model answers, the assistant message follows and
        the activity time is set; when the model raises, the error is
        returned after the user message. */
    method ProcessMessage(id: nat, userMessage: string, now: nat, analysis: QueryAnalysis,
                          domain: Option<string>, citations: Json, reply: Result<Reply, string>)
      returns (r: Outcome)
      requires Valid()
      modifies this
      ensures Valid()
      ensures id !in old(sessions) || Expired(old(sessions)[id], now) ==>
        r == Failed(id, "Session not found or expired") && sessions == old(sessions) - {id}
      ensures id in old(sessions) && !Expired(old(sessions)[id], now) ==>
        var s := old(sessions)[id];
        var user := Message(old(nextId), User, userMessage, now,
                            Some(map["intent" := JStr(analysis.intent), "domain" := OptionalString(domain),
                                     "legal_terms" := StringList(analysis.legalTerms),
                                     "citations" := citations]));
        sessions.Keys == old(sessions).Keys
        && (forall k | k in sessions && k != id :: sessions[k] == old(sessions)[k])
        && sessions[id].sessionId == id && sessions[id].userId == s.userId
        && sessions[id].createdAt == s.createdAt
        && sessions[id].context == Some(UpdatedContext(s.context, analysis, domain))
        && (reply.Err? ==>
              r == Failed(id, "Error processing message: " + reply.error)
              && sessions[id].messages == s.messages + [user]
              && sessions[id].lastActivity == s.lastActivity)
        && (reply.Ok? ==>
              r == Answered(id, ResponseContent(reply.value, analysis.intent),
                            ResponseMetadata(reply.value, analysis, domain),
                            UpdatedContext(s.context, analysis, domain))
              && sessions[id].messages == s.messages + [user,
                   Message(old(nextId) + 1, Assistant, ResponseContent(reply.value, analysis.intent), now,
                           Some(ResponseMetadata(reply.value, analysis, domain)))]
              && sessions[id].lastActivity == now)
    {
      var found := GetSession(id, now);
      if found.None? {
        return Failed(id, "Session not found or expired");
      }
      var session := found.value;
      var context := UpdatedContext(session.context, analysis, domain);
      var userMsg := Message(nextId, User, userMessage, now,
                             Some(map["intent" := JStr(analysis.intent), "domain" := OptionalString(domain),
                                      "legal_terms" := StringList(analysis.legalTerms),
                                      "citations" := citations]));
      nextId := nextId + 1;
      session := session.(context := Some(context), messages := session.messages + [userMsg]);
      sessions := sessions[id := session];
      if reply.Err? {
        return Failed(id, "Error processing message: " + reply.error);
      }
      var content := ResponseContent(reply.value, analysis.intent);
      var metadata := ResponseMetadata(reply.value, analysis, domain);
      var assistantMsg := Message(nextId, Assistant, content, now, Some(metadata));
      nextId := nextId + 1;
      session := session.(messages := session.messages + [assistantMsg], lastActivity := now);
      sessions := sessions[id := session];
      r := Answered(id, content, metadata, context);
    }

    /** `clear_session`: `true` exactly when the identifier was present; it is
        absent afterwards and every other session stays. */
    method ClearSession(id: nat) returns (removed: bool)
      requires Valid()
      modifies this
      ensures Valid() && nextId == old(nextId)
      ensures removed <==> id in old(sessions)
      ensures sessions == old(sessions) - {id}
    {
      if id in sessions {
        sessions := sessions - {id};
        return true;
      }
      return false;
    }

    /** `cleanup_expired_sessions`: removes exactly the expired sessions and
        returns how many there were. */
    method CleanupExpiredSessions(now: nat) returns (count: nat)
      requires Valid()
      modifies this
      ensures Valid() && nextId == old(nextId)
      ensures sessions == map k | k in old(sessions) && !Expired(old(sessions)[k], now) :: old(sessions)[k]
      ensures count == |set k | k in old(sessions) && Expired(old(sessions)[k], now)|
    {
      var expired: set<nat> := {};
      var unseen := sessions.Keys;
      while unseen != {}
        invariant sessions == old(sessions)
        invariant unseen <= sessions.Keys
        invariant expired == set k | k in sessions && k !in unseen && Expired(sessions[k], now)
        decreases |unseen|
      {
        var k :| k in unseen;
        if now - sessions[k].lastActivity > Timeout {
          expired := expired + {k};
        }
        unseen := unseen - {k};
      }
      assert expired == set k | k in old(sessions) && Expired(old(sessions)[k], now);
      count := |expired|;
      sessions := map k | k in sessions && k !in expired :: sessions[k];
    }

    /** `get_chat_statistics`: the session count, the message total, and the
        most common domain and intent, or zeros and `None` with no session. */
    method GetChatStatistics() returns (stats: Statistics)
      requires Valid()
      ensures sessions == map[] ==> stats == Statistics(0, 0, None, None, None)
      ensures sessions != map[] ==>
        stats.activeSessions == |sessions| && stats.totalMessages == TotalMessages(sessions)
        && stats.timeoutHours == Some(2)
        && MostCommonIn(stats.mostCommonDomain, DomainBag(sessions))
        && MostCommonIn(stats.mostCommonIntent, IntentBag(sessions))
    {
      if sessions == map[] {
        return Statistics(0, 0, None, None, None);
      }
      var total, domains, intents := Tally(sessions);
      var domain := MostCommon(domains);
      var intent := MostCommon(intents);
      stats := Statistics(|sessions|, total, domain, intent, Some(2));
    }
  }

  // ----------------------------------------------------------- statistics

  /** The statistics dictionary; the average is `totalMessages` over
      `activeSessions`, and `timeoutHours` is absent with no session. */
  datatype Statistics = Statistics(activeSessions: nat, totalMessages: nat,
                                   mostCommonDomain: Option<Json>, mostCommonIntent: Option<Json>,
                                   timeoutHours: Option<nat>)

  /** The sessions under the given keys. */
  function Restrict(m: map<nat, Session>, keys: set<nat>): map<nat, Session>
  {
    map k | k in m && k in keys :: m[k]
  }

  /** The session's domain when its context holds a truthy one. */
  function SessionDomain(s: Session): multiset<Json>
  {
    if s.context.Some? && "legal_domain" in s.context.value && Truthy(s.context.value["legal_domain"])
    then multiset{s.context.value["legal_domain"]} else multiset{}
  }

  /** The message's intent when its metadata holds a truthy one. */
  function MessageIntent(m: Message): multiset<Json>
  {
    if m.metadata.Some? && "intent" in m.metadata.value && Truthy(m.metadata.value["intent"])
    then multiset{m.metadata.value["intent"]} else multiset{}
  }

  function MessageIntents(ms: seq<Message>): multiset<Json>
  {
    if ms == [] then multiset{} else MessageIntents(ms[..|ms| - 1]) + MessageIntent(ms[|ms| - 1])
  }

  /** The intent loop over one session's messages. */
  method CollectIntents(ms: seq<Message>) returns (r: multiset<Json>)
    ensures r == MessageIntents(ms)
  {
    r := multiset{};
    var i := 0;
    while i < |ms|
      invariant 0 <= i <= |ms|
      invariant r == MessageIntents(ms[..i])
    {
      assert ms[..i + 1][..i] == ms[..i];
      r := r + MessageIntent(ms[i]);
      i := i + 1;
    }
    assert ms[..i] == ms;
  }

  /** The sum of the message counts of the sessions. */
  ghost function TotalMessages(m: map<nat, Session>): nat
    decreases |m|
  {
    if m == map[] then 0
    else
      var k :| k in m;
      |m[k].messages| + TotalMessages(m - {k})
  }

  /** The multiset union of `f` over the sessions. */
  ghost function Gather(m: map<nat, Session>, f: Session -> multiset<Json>): multiset<Json>
    decreases |m|
  {
    if m == map[] then multiset{}
    else
      var k :| k in m;
      f(m[k]) + Gather(m - {k}, f)
  }

  /** The truthy intents of a session's messages. */
  function SessionIntents(s: Session): multiset<Json>
  {
    MessageIntents(s.messages)
  }

  /** The truthy domains of the sessions. */
  ghost function DomainBag(m: map<nat, Session>): multiset<Json>
  {
    Gather(m, SessionDomain)
  }

  /** The truthy intents of all messages of the sessions. */
  ghost function IntentBag(m: map<nat, Session>): multiset<Json>
  {
    Gather(m, SessionIntents)
  }

  /** Any key can be taken out first: the totals do not depend on the order
      in which the sessions are visited. */
  lemma {:induction false} TotalRemove(m: map<nat, Session>, k: nat)
    requires k in m
    ensures TotalMessages(m) == |m[k].messages| + TotalMessages(m - {k})
    decreases |m|
  {
    var j :| j in m && TotalMessages(m) == |m[j].messages| + TotalMessages(m - {j});
    if j != k {
      TotalRemove(m - {j}, k);
      TotalRemove(m - {k}, j);
      assert m - {j} - {k} == m - {k} - {j};
    }
  }

  lemma {:induction false} GatherRemove(m: map<nat, Session>, k: nat, f: Session -> multiset<Json>)
    requires k in m
    ensures Gather(m, f) == f(m[k]) + Gather(m - {k}, f)
    decreases |m|
  {
    var j :| j in m && Gather(m, f) == f(m[j]) + Gather(m - {j}, f);
    if j != k {
      GatherRemove(m - {j}, k, f);
      GatherRemove(m - {k}, j, f);
      assert m - {j} - {k} == m - {k} - {j};
    }
  }

  lemma RestrictRemove(m: map<nat, Session>, keys: set<nat>, k: nat)
    requires k in m && k in keys
    ensures TotalMessages(Restrict(m, keys)) == |m[k].messages| + TotalMessages(Restrict(m, keys - {k}))
    ensures DomainBag(Restrict(m, keys)) == SessionDomain(m[k]) + DomainBag(Restrict(m, keys - {k}))
    ensures IntentBag(Restrict(m, keys)) == SessionIntents(m[k]) + IntentBag(Restrict(m, keys - {k}))
  {
    TotalRemove(Restrict(m, keys), k);
    GatherRemove(Restrict(m, keys), k, SessionDomain);
    GatherRemove(Restrict(m, keys), k, SessionIntents);
    assert Restrict(m, keys) - {k} == Restrict(m, keys - {k});
  }

  /** The statistics loop: message total, domains and intents over all
      sessions, in whatever order they are visited. */
  method Tally(sessions: map<nat, Session>) returns (total: nat, domains: multiset<Json>, intents: multiset<Json>)
    ensures total == TotalMessages(sessions)
    ensures domains == DomainBag(sessions) && intents == IntentBag(sessions)
  {
    total := 0;
    domains := multiset{};
    intents := multiset{};
    var unseen := sessions.Keys;
    assert Restrict(sessions, unseen) == sessions;
    while unseen != {}
      invariant unseen <= sessions.Keys
      invariant total + TotalMessages(Restrict(sessions, unseen)) == TotalMessages(sessions)
      invariant domains + DomainBag(Restrict(sessions, unseen)) == DomainBag(sessions)
      invariant intents + IntentBag(Restrict(sessions, unseen)) == IntentBag(sessions)
      decreases |unseen|
    {
      var k :| k in unseen;
      var session := sessions[k];
      RestrictRemove(sessions, unseen, k);
      total := total + |session.messages|;
      domains := domains + SessionDomain(session);
      var sessionIntents := CollectIntents(session.messages);
      intents := intents + sessionIntents;
      unseen := unseen - {k};
    }
    assert Restrict(sessions, {}) == map[];
  }

  /** `max(set(xs), key=xs.count)`: `None` for no values, else a value of
      maximal count. */
  ghost predicate MostCommonIn(r: Option<Json>, bag: multiset<Json>)
  {
    (r.None? <==> bag == multiset{})
    && (r.Some? ==> r.value in bag && forall x | x in bag :: bag[x] <= bag[r.value])
  }

  /** The loop behind `max(set(xs), key=xs.count)`. */
  method MostCommon(bag: multiset<Json>) returns (r: Option<Json>)
    ensures MostCommonIn(r, bag)
  {
    r := None;
    var best := 0;
    var unseen := set x | x in bag;
    while unseen != {}
      invariant unseen <= set x | x in bag
      invariant r.None? ==> best == 0 && unseen == set x | x in bag
      invariant r.Some? ==> r.value in bag && best == bag[r.value]
      invariant forall x | x in bag && x !in unseen :: bag[x] <= best
      decreases |unseen|
    {
      var x :| x in unseen;
      if r.None? || bag[x] > best {
        r := Some(x);
        best := bag[x];
      }
      unseen := unseen - {x};
    }
  }

  // ------------------------------------------------------- serialisation

  /** `datetime.isoformat`, for the whole-second clock of this model. */
  function IsoFormat(t: nat): string
  {
    NatToString(t)
  }

  /** `datetime.fromisoformat`: a `ValueError` on text that is not a time. */
  function FromIsoFormat(s: string): Result<nat, string>
  {
    if s != [] && forall i | 0 <= i < |s| :: IsDigit(s[i]) then Ok(DigitsValue(s))
    else Err("Invalid isoformat string")
  }

  lemma IsoRoundTrip(t: nat)
    ensures FromIsoFormat(IsoFormat(t)) == Ok(t)
  {
    NatToStringInverse(t);
  }

  function RoleName(role: Role): string
  {
    if role == User then "user" else "assistant"
  }

  function MessageToDict(m: Message): (j: Json)
    ensures j.JObj? && j.fields.Keys == {"id", "role", "content", "timestamp", "metadata"}
    ensures j.fields["content"] == JStr(m.content)
    ensures j.fields["metadata"].JNull? <==> m.metadata.None?
  {
    JObj(map["id" := JStr(NatToString(m.id)), "role" := JStr(RoleName(m.role)),
             "content" := JStr(m.content), "timestamp" := JStr(IsoFormat(m.timestamp)),
             "metadata" := if m.metadata.Some? then JObj(m.metadata.value) else JNull])
  }

  /** A decimal identifier. */
  function IdFrom(j: Json): Result<nat, string>
  {
    if j.JStr? && j.s != [] && forall i | 0 <= i < |j.s| :: IsDigit(j.s[i]) then Ok(DigitsValue(j.s))
    else Err("invalid identifier")
  }

  function RoleFrom(j: Json): Result<Role, string>
  {
    if j == JStr("user") then Ok(User)
    else if j == JStr("assistant") then Ok(Assistant)
    else Err("invalid role")
  }

  function TimeFrom(j: Json): Result<nat, string>
  {
    if j.JStr? then FromIsoFormat(j.s) else Err("fromisoformat: argument must be str")
  }

  /** An optional dictionary: `None` or a dictionary. */
  function OptionalDict(j: Json): Result<Option<map<string, Json>>, string>
  {
    if j.JNull? then Ok(None) else if j.JObj? then Ok(Some(j.fields)) else Err("invalid dictionary")
  }

  /** `ChatMessage.from_dict`: `cls(**data)` refuses unknown and missing keys;
      `metadata` defaults to `None`. */
  function MessageFromDict(j: Json): (r: Result<Message, string>)
    ensures r.Ok? ==> j.JObj? && {"id", "role", "content", "timestamp"} <= j.fields.Keys
                      && j.fields.Keys <= {"id", "role", "content", "timestamp", "metadata"}
    ensures r.Ok? ==> j.fields["content"] == JStr(r.value.content)
    ensures r.Ok? ==> (r.value.metadata.None? <==> "metadata" !in j.fields || j.fields["metadata"].JNull?)
  {
    if !j.JObj? then Err("argument after ** must be a mapping")
    else
      var f := j.fields;
      if !(f.Keys <= {"id", "role", "content", "timestamp", "metadata"}) then Err("unexpected keyword argument")
      else if !("id" in f && "role" in f && "content" in f && "timestamp" in f) then Err("missing required argument")
      else if !f["content"].JStr? then Err("invalid content")
      else
        var id := IdFrom(f["id"]);
        var role := RoleFrom(f["role"]);
        var time := TimeFrom(f["timestamp"]);
        var meta := if "metadata" in f then OptionalDict(f["metadata"]) else Ok(None);
        if id.Err? then Err(id.error)
        else if role.Err? then Err(role.error)
        else if time.Err? then Err(time.error)
        else if meta.Err? then Err(meta.error)
        else Ok(Message(id.value, role.value, f["content"].s, time.value, meta.value))
  }

  lemma MessageRoundTrip(m: Message)
    ensures MessageFromDict(MessageToDict(m)) == Ok(m)
  {
    var f := MessageToDict(m).fields;
    NatToStringInverse(m.id);
    IsoRoundTrip(m.timestamp);
    assert IdFrom(f["id"]) == Ok(m.id);
    assert RoleFrom(f["role"]) == Ok(m.role);
  }

  function MessagesToDicts(ms: seq<Message>): seq<Json>
  {
    seq(|ms|, i requires 0 <= i < |ms| => MessageToDict(ms[i]))
  }

  /** Every item parsed in order; the first failure aborts. */
  function ParseAll<T>(items: seq<Json>, parse: Json -> Result<T, string>): Result<seq<T>, string>
  {
    if items == [] then Ok([])
    else
      var head := parse(items[0]);
      var rest := ParseAll(items[1..], parse);
      if head.Err? then Err(head.error)
      else if rest.Err? then Err(rest.error)
      else Ok([head.value] + rest.value)
  }

  /** `[ChatMessage.from_dict(msg) for msg in data['messages']]`. */
  function MessagesFrom(items: seq<Json>): Result<seq<Message>, string>
  {
    ParseAll(items, MessageFromDict)
  }

  lemma {:induction false} ParseAllMessages(ms: seq<Message>)
    requires forall i | 0 <= i < |ms| :: MessageFromDict(MessageToDict(ms[i])) == Ok(ms[i])
    ensures ParseAll(MessagesToDicts(ms), MessageFromDict) == Ok(ms)
  {
    ParseAllOk(MessagesToDicts(ms), MessageFromDict, ms);
  }

  /** Items that each parse to the matching value parse, together, to the
      whole sequence of values. */
  lemma {:induction false} ParseAllOk<T>(items: seq<Json>, parse: Json -> Result<T, string>, vals: seq<T>)
    requires |items| == |vals|
    requires forall i | 0 <= i < |items| :: parse(items[i]) == Ok(vals[i])
    ensures ParseAll(items, parse) == Ok(vals)
  {
    if items != [] {
      assert parse(items[0]) == Ok(vals[0]);
      ParseAllOk(items[1..], parse, vals[1..]);
      assert [vals[0]] + vals[1..] == vals;
    }
  }

  lemma MessagesRoundTrip(ms: seq<Message>)
    ensures MessagesFrom(MessagesToDicts(ms)) == Ok(ms)
  {
    forall i | 0 <= i < |ms| ensures MessageFromDict(MessageToDict(ms[i])) == Ok(ms[i]) {
      MessageRoundTrip(ms[i]);
    }
    ParseAllMessages(ms);
  }

  /** `ChatSession.to_dict`. */
  function SessionToDict(s: Session): (j: Json)
    ensures j.JObj? && j.fields.Keys == {"session_id", "user_id", "created_at", "last_activity", "messages", "context"}
    ensures j.fields["messages"] == JList(MessagesToDicts(s.messages))
    ensures j.fields["context"].JNull? <==> s.context.None?
  {
    JObj(map["session_id" := JStr(NatToString(s.sessionId)), "user_id" := OptionalString(s.userId),
             "created_at" := JStr(IsoFormat(s.createdAt)), "last_activity" := JStr(IsoFormat(s.lastActivity)),
             "messages" := JList(MessagesToDicts(s.messages)),
             "context" := if s.context.Some? then JObj(s.context.value) else JNull])
  }

  function UserIdFrom(j: Json): Result<Option<string>, string>
  {
    if j.JNull? then Ok(None) else if j.JStr? then Ok(Some(j.s)) else Err("invalid user id")
  }

  /** `ChatSession.from_dict`: the times parsed, the messages rebuilt, and
      `context` defaulting to `None`. */
  function SessionFromDict(j: Json): (r: Result<Session, string>)
    ensures r.Ok? ==> j.JObj? && {"session_id", "user_id", "created_at", "last_activity", "messages"} <= j.fields.Keys
                      && j.fields.Keys <= {"session_id", "user_id", "created_at", "last_activity", "messages", "context"}
    ensures r.Ok? ==> j.fields["messages"].JList? && MessagesFrom(j.fields["messages"].items) == Ok(r.value.messages)
    ensures r.Ok? ==> (r.value.context.None? <==> "context" !in j.fields || j.fields["context"].JNull?)
  {
    if !j.JObj? then Err("argument after ** must be a mapping")
    else
      var f := j.fields;
      if !("created_at" in f && "last_activity" in f && "messages" in f) then Err("KeyError")
      else if !(f.Keys <= {"session_id", "user_id", "created_at", "last_activity", "messages", "context"})
      then Err("unexpected keyword argument")
      else if !("session_id" in f && "user_id" in f) then Err("missing required argument")
      else if !f["messages"].JList? then Err("invalid messages")
      else
        var created := TimeFrom(f["created_at"]);
        var last := TimeFrom(f["last_activity"]);
        var messages := MessagesFrom(f["messages"].items);
        var id := IdFrom(f["session_id"]);
        var user := UserIdFrom(f["user_id"]);
        var context := if "context" in f then OptionalDict(f["context"]) else Ok(None);
        if created.Err? then Err(created.error)
        else if last.Err? then Err(last.error)
        else if messages.Err? then Err(messages.error)
        else if id.Err? then Err(id.error)
        else if user.Err? then Err(user.error)
        else if context.Err? then Err(context.error)
        else Ok(Session(id.value, user.value, created.value, last.value, messages.value, context.value))
  }

  /** `from_dict` inverts `to_dict`. */
  lemma SessionRoundTrip(s: Session)
    ensures SessionFromDict(SessionToDict(s)) == Ok(s)
  {
    var f := SessionToDict(s).fields;
    SessionDictFields(s);
    NatToStringInverse(s.sessionId);
    IsoRoundTrip(s.createdAt);
    IsoRoundTrip(s.lastActivity);
    MessagesRoundTrip(s.messages);
    assert IdFrom(f["session_id"]) == Ok(s.sessionId);
    assert UserIdFrom(f["user_id"]) == Ok(s.userId);
  }

  lemma SessionDictFields(s: Session)
    ensures var f := SessionToDict(s).fields;
      f.Keys == {"session_id", "user_id", "created_at", "last_activity", "messages", "context"}
      && f["session_id"] == JStr(NatToString(s.sessionId)) && f["user_id"] == OptionalString(s.userId)
      && f["created_at"] == JStr(IsoFormat(s.createdAt)) && f["last_activity"] == JStr(IsoFormat(s.lastActivity))
      && f["messages"] == JList(MessagesToDicts(s.messages))
      && f["context"] == if s.context.Some? then JObj(s.context.value) else JNull
  {
  }
}
