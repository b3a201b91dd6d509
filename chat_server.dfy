/** The store logic of the platform server's HTTP handlers: `POST /api/chat` from the
    lead upsert onwards, and `GET` / `DELETE /api/conversation/:userId`. The AI agent
    is an opaque function of the arguments the handler passes it. */
module ChatServer {
  import opened Wrappers
  import opened JsValues
  import opened Db
  import LeadRepository
  import ConversationRepository

  /** The request body of `POST /api/chat`; an absent property is `None`. */
  datatype ChatRequest = ChatRequest(userId: Option<string>, message: Option<string>, platform: Option<string>)

  /** One entry of the history handed to the agent: `{role, content, timestamp}`. */
  datatype HistoryEntry = HistoryEntry(role: string, content: string, timestamp: nat)

  /** The arguments of `agentClient.chat(userId, platform, message, history, knownEntities)`. */
  datatype AgentCall = AgentCall(userId: string, platform: string, message: string,
                                 history: seq<HistoryEntry>, knownEntities: map<string, Value>)

  /** What `agentClient.chat` resolves to: `{success: false, error}` or `{success: true, data}`. */
  datatype AgentResult = AgentFailed(error: string) | AgentSucceeded(data: Value)

  /** The handler's replies: 400, 500 with the agent's error, 500 from the catch-all, 200. */
  datatype ChatResponse =
    | MessageRequired
    | AgentError(details: string)
    | InternalError
    | Replied(userId: string, response: string, metadata: Value)

  function Status(r: ChatResponse): nat
  {
    match r
    case MessageRequired => 400
    case AgentError(_) => 500
    case InternalError => 500
    case Replied(_, _, _) => 200
  }

  /** `!message`: a missing or empty message. */
  predicate MissingMessage(body: ChatRequest)
  {
    body.message.None? || body.message.value == ""
  }

  /** `user_id || uuidv4()`, the fresh id given as `freshId`. */
  function UserIdOf(body: ChatRequest, freshId: string): (id: string)
    ensures body.userId.Some? && body.userId.value != "" ==> id == body.userId.value
    ensures body.userId.None? || body.userId.value == "" ==> id == freshId
  {
    if body.userId.Some? && body.userId.value != "" then body.userId.value else freshId
  }

  /** The destructuring default `platform = 'web'`. */
  function PlatformOf(body: ChatRequest): string
  {
    body.platform.GetOr("web")
  }

  /** `dbHistory.map(msg => ({role, content, timestamp}))`. */
  function Entries(rows: seq<ConversationRepository.HistoryRow>): (h: seq<HistoryEntry>)
    ensures |h| == |rows|
    ensures forall i :: 0 <= i < |rows| ==>
      h[i] == HistoryEntry(rows[i].role, rows[i].content, rows[i].timestamp)
  {
    seq(|rows|, i requires 0 <= i < |rows| => HistoryEntry(rows[i].role, rows[i].content, rows[i].timestamp))
  }

  /** `metadata.new_entities` spread into an object: only an object contributes keys. */
  function NewEntities(metadata: Value): map<string, Value>
  {
    var e := Field(metadata, "new_entities");
    if e.Obj? then e.fields else map[]
  }

  /** `{ ...knownEntities, ...metadata.new_entities }`. */
  function TurnEntities(known: map<string, Value>, metadata: Value): map<string, Value>
  {
    Spread(known, NewEntities(metadata))
  }

  /** No previously known entity is dropped; a new value wins over a known one. */
  lemma TurnEntitiesKeepKnown(known: map<string, Value>, metadata: Value)
    ensures var merged := TurnEntities(known, metadata);
      && known.Keys <= merged.Keys
      && (forall k :: k in NewEntities(metadata) ==> merged[k] == NewEntities(metadata)[k])
      && (forall k :: k in known && k !in NewEntities(metadata) ==> merged[k] == known[k])
  {
  }

  /** The object handed to `updateLead` after a turn. */
  function TurnUpdates(known: map<string, Value>, metadata: Value): LeadRepository.Updates
  {
    [ ("entities", Obj(TurnEntities(known, metadata))),
      ("intent", Field(metadata, "intent")),
      ("sentiment", Field(metadata, "sentiment")),
      ("lead_score", Field(metadata, "lead_score")),
      ("urgency", Field(metadata, "urgency")),
      ("confidence", Field(metadata, "confidence")),
      ("metadata", Obj(map["suggested_action" := Field(metadata, "suggested_action")])) ]
  }

  /** The turn's update replaces the score by the agent's, whatever it was before (so the
      score can go down), and stores the accumulated entities and `{suggested_action}`. */
  lemma TurnReplacesScore(leads: map<nat, Lead>, leadId: nat, known: map<string, Value>, metadata: Value, now: nat)
    requires leadId in leads
    requires LeadRepository.ExecuteUpdate(leads, LeadRepository.StatementFor(leadId, TurnUpdates(known, metadata)), now).Ok?
    ensures var r := LeadRepository.ExecuteUpdate(leads, LeadRepository.StatementFor(leadId, TurnUpdates(known, metadata)), now);
      && r.value.Some?
      && LeadRepository.BindInt(Field(metadata, "lead_score")) == Some(r.value.value.leadScore)
      && r.value.value.entities == TurnEntities(known, metadata)
      && r.value.value.metadata == map["suggested_action" := Field(metadata, "suggested_action")]
  {
    var updates := TurnUpdates(known, metadata);
    var row := LeadRepository.ExecuteUpdate(leads, LeadRepository.StatementFor(leadId, updates), now).value.value;
    LeadRepository.UpdateStoresKeyAt(leads, leadId, updates, now, 0);
    LeadRepository.StoredEntities(row, updates[0].1);
    LeadRepository.UpdateStoresKeyAt(leads, leadId, updates, now, 3);
    LeadRepository.StoredScore(row, updates[3].1);
    LeadRepository.UpdateStoresKeyAt(leads, leadId, updates, now, 6);
    LeadRepository.StoredMetadata(row, updates[6].1);
  }

  /** The upsert a chat turn performs, from the state before the request. */
  ghost function TurnUpsert(leads: map<nat, Lead>, nextId: nat, clock: nat, organizationId: nat,
                            body: ChatRequest, freshId: string, platformData: map<string, Value>): LeadRepository.Upserted
  {
    LeadRepository.Upsert(leads, nextId, DedupKey(organizationId, PlatformOf(body), UserIdOf(body, freshId)), platformData, clock + 1)
  }

  /** The intent and sentiment the user turn is stored with. */
  function UserMetadata(metadata: Value): ConversationRepository.TurnMetadata
  {
    ConversationRepository.TurnMetadata(Field(metadata, "intent"), Field(metadata, "sentiment"), Null)
  }

  /** An agent reply the handler can read: a string `response` and some `metadata`. */
  predicate Readable(data: Value)
  {
    Field(data, "response").Str? && Field(data, "metadata") != Null
  }

  /** `after` is `before` with the user turn and then the assistant turn appended. */
  predicate TwoTurnsAppended(before: seq<Turn>, after: seq<Turn>, leadId: nat, organizationId: nat,
                             message: string, response: string, metadata: Value)
  {
    && |after| == |before| + 2
    && after[..|before|] == before
    && UserTurn(after[|before|], leadId, organizationId, message, metadata)
    && AssistantTurn(after[|before| + 1], leadId, organizationId, response)
  }

  /** `POST /api/chat` from line 144 on. `platformData` is the enriched snapshot, `freshId`
      the id `uuidv4()` would return, `agent` the AI service. `call` is what the handler
      passed to the agent, when it got that far. The reply is 200 exactly when the agent
      answers readably, its intent and sentiment can be stored and the lead update succeeds. */
  method HandleChat(db: Database, organizationId: nat, body: ChatRequest, freshId: string,
                    platformData: map<string, Value>, agent: AgentCall -> AgentResult)
    returns (resp: ChatResponse, call: Option<AgentCall>)
    requires db.Valid()
    modifies db
    ensures db.Valid()
    ensures MissingMessage(body) ==>
      && resp == MessageRequired && call.None?
      && db.leads == old(db.leads) && db.conversations == old(db.conversations)
      && db.clock == old(db.clock) && db.nextLeadId == old(db.nextLeadId)
    ensures !MissingMessage(body) ==>
      var u := TurnUpsert(old(db.leads), old(db.nextLeadId), old(db.clock), organizationId, body, freshId, platformData);
      call == Some(AgentCall(UserIdOf(body, freshId), PlatformOf(body), body.message.value,
                             Entries(ConversationRepository.History(old(db.conversations), u.lead.id, ConversationRepository.DefaultHistoryLimit)),
                             u.lead.entities))
    ensures call.Some? && agent(call.value).AgentFailed? ==>
      var u := TurnUpsert(old(db.leads), old(db.nextLeadId), old(db.clock), organizationId, body, freshId, platformData);
      resp == AgentError(agent(call.value).error) && db.conversations == old(db.conversations) && db.leads == u.leads
    ensures call.Some? && agent(call.value).AgentSucceeded? ==>
      var u := TurnUpsert(old(db.leads), old(db.nextLeadId), old(db.clock), organizationId, body, freshId, platformData);
      var data := agent(call.value).data;
      var metadata := Field(data, "metadata");
      && (resp.Replied? <==>
            && Readable(data)
            && !ConversationRepository.BadMetadata(UserMetadata(metadata))
            && LeadRepository.ExecuteUpdate(u.leads, LeadRepository.StatementFor(u.lead.id, TurnUpdates(u.lead.entities, metadata)),
                                            old(db.clock) + 4).Ok?)
      && (!resp.Replied? ==> resp == InternalError && db.leads == u.leads)
      && (resp == InternalError && (!Readable(data) || ConversationRepository.BadMetadata(UserMetadata(metadata))) ==>
            db.conversations == old(db.conversations))
      && (resp == InternalError && Readable(data) && !ConversationRepository.BadMetadata(UserMetadata(metadata)) ==>
            TwoTurnsAppended(old(db.conversations), db.conversations, u.lead.id, organizationId, body.message.value,
                             Field(data, "response").s, metadata))
    ensures resp.Replied? ==>
      var u := TurnUpsert(old(db.leads), old(db.nextLeadId), old(db.clock), organizationId, body, freshId, platformData);
      var data := agent(call.value).data;
      && call.Some? && agent(call.value).AgentSucceeded? && Field(data, "response").Str?
      && resp == Replied(UserIdOf(body, freshId), Field(data, "response").s, Field(data, "metadata"))
      && TwoTurnsAppended(old(db.conversations), db.conversations, u.lead.id, organizationId, body.message.value,
                          Field(data, "response").s, Field(data, "metadata"))
      && u.lead.id in db.leads
      && db.leads == u.leads[u.lead.id := db.leads[u.lead.id]]
      && LeadRepository.ExecuteUpdate(u.leads, LeadRepository.StatementFor(u.lead.id, TurnUpdates(u.lead.entities, Field(data, "metadata"))), db.clock)
           == Ok(Some(db.leads[u.lead.id]))
  {
    call := None;
    if body.message.None? || body.message.value == "" {
      return MessageRequired, call;
    }
    var lead, agentCall := StartTurn(db, organizationId, body, freshId, platformData);
    call := Some(agentCall);
    var result := agent(agentCall);
    if result.AgentFailed? {
      return AgentError(result.error), call;
    }
    var data := result.data;
    var response := Field(data, "response");
    var metadata := Field(data, "metadata");
    if data == Null || !response.Str? || metadata == Null {
      // Destructuring `null`, `response.substring` on a non-string or `metadata.new_entities`
      // on `undefined` throws before anything is written.
      return InternalError, call;
    }
    var ok := RecordTurn(db, organizationId, lead, agentCall.message, response.s, metadata);
    if !ok {
      return InternalError, call;
    }
    resp := Replied(agentCall.userId, response.s, metadata);
  }

  /** Lines 144-170: the upsert, the stored history and the arguments for the agent. */
  method StartTurn(db: Database, organizationId: nat, body: ChatRequest, freshId: string,
                   platformData: map<string, Value>) returns (lead: Lead, call: AgentCall)
    requires db.Valid() && !MissingMessage(body)
    modifies db
    ensures db.Valid()
    ensures db.conversations == old(db.conversations) && db.clock == old(db.clock) + 1
    ensures LeadRepository.Upserted(db.leads, db.nextLeadId, lead)
         == TurnUpsert(old(db.leads), old(db.nextLeadId), old(db.clock), organizationId, body, freshId, platformData)
    ensures lead.id in db.leads && db.leads[lead.id] == lead
    ensures call == AgentCall(UserIdOf(body, freshId), PlatformOf(body), body.message.value,
                              Entries(ConversationRepository.History(old(db.conversations), lead.id, ConversationRepository.DefaultHistoryLimit)),
                              lead.entities)
  {
    var message := body.message.value;
    var userId := UserIdOf(body, freshId);
    var platform := PlatformOf(body);
    lead := LeadRepository.FindOrCreate(db, organizationId, platform, userId, platformData);
    var dbHistory := ConversationRepository.GetConversationHistory(db, lead.id);
    assert dbHistory == ConversationRepository.History(db.conversations, lead.id, ConversationRepository.DefaultHistoryLimit);
    var history := Entries(dbHistory);
    var knownEntities := lead.entities;
    call := AgentCall(userId, platform, message, history, knownEntities);
  }

  /** Lines 191-216: the user turn, the assistant turn, then the lead update. `ok` is false
      when one of them throws; what was written before the throw stays: no turn when the
      user turn cannot be stored, both turns when the update fails. */
  method RecordTurn(db: Database, organizationId: nat, lead: Lead, message: string, response: string, metadata: Value)
    returns (ok: bool)
    requires db.Valid() && lead.id in db.leads
    modifies db
    ensures db.Valid()
    ensures db.nextLeadId == old(db.nextLeadId)
    ensures ok <==>
      && !ConversationRepository.BadMetadata(UserMetadata(metadata))
      && LeadRepository.ExecuteUpdate(old(db.leads), LeadRepository.StatementFor(lead.id, TurnUpdates(lead.entities, metadata)),
                                      old(db.clock) + 3).Ok?
    ensures ConversationRepository.BadMetadata(UserMetadata(metadata)) ==> db.conversations == old(db.conversations)
    ensures !ConversationRepository.BadMetadata(UserMetadata(metadata)) ==>
      TwoTurnsAppended(old(db.conversations), db.conversations, lead.id, organizationId, message, response, metadata)
    ensures !ok ==> db.leads == old(db.leads)
    ensures ok ==>
      && db.leads == old(db.leads)[lead.id := db.leads[lead.id]]
      && LeadRepository.ExecuteUpdate(old(db.leads), LeadRepository.StatementFor(lead.id, TurnUpdates(lead.entities, metadata)), db.clock)
           == Ok(Some(db.leads[lead.id]))
  {
    ok := AppendTurns(db, organizationId, lead.id, message, response, metadata);
    if !ok {
      return;
    }
    var updates := TurnUpdates(lead.entities, metadata);
    var updated := LeadRepository.UpdateLead(db, lead.id, updates);
    LeadRepository.UpdateSucceeds(old(db.leads), lead.id, updates, db.clock);
    // A thrown update, or `lead.entities` on the undefined row it returned.
    ok := updated.Ok? && updated.value.Some?;
  }

  /** Lines 191-204: the two `addMessage` calls; only the user turn carries intent and sentiment.
      The user turn fails exactly when its intent or sentiment cannot be stored, and then
      nothing is written; the assistant turn, with no metadata, always goes in. */
  method AppendTurns(db: Database, organizationId: nat, leadId: nat, message: string, response: string, metadata: Value)
    returns (ok: bool)
    requires db.Valid() && leadId in db.leads
    modifies db
    ensures db.Valid()
    ensures db.leads == old(db.leads) && db.nextLeadId == old(db.nextLeadId)
    ensures db.clock == old(db.clock) + (if ok then 2 else 1)
    ensures ok <==> !ConversationRepository.BadMetadata(UserMetadata(metadata))
    ensures !ok ==> db.conversations == old(db.conversations)
    ensures ok ==> TwoTurnsAppended(old(db.conversations), db.conversations, leadId, organizationId, message, response, metadata)
  {
    var userMeta := UserMetadata(metadata);
    var userRow := ConversationRepository.AddMessage(db, leadId, organizationId, "user", message, userMeta);
    ConversationRepository.InsertTurnMeaning(db.leads, leadId, organizationId, "user", message, userMeta, db.clock);
    if userRow.Err? {
      return false;
    }
    var assistantRow := ConversationRepository.AddMessage(db, leadId, organizationId, "assistant", response,
      ConversationRepository.NoMetadata);
    ConversationRepository.InsertTurnMeaning(db.leads, leadId, organizationId, "assistant", response,
      ConversationRepository.NoMetadata, db.clock);
    ok := assistantRow.Ok?;
  }

  /** The user's turn: its role, content, and the agent's intent and sentiment. */
  predicate UserTurn(t: Turn, leadId: nat, organizationId: nat, message: string, metadata: Value)
  {
    && t.leadId == leadId && t.organizationId == organizationId && t.role == "user" && t.content == message
    && StoredText(t.intent, Field(metadata, "intent"))
    && StoredText(t.sentiment, Field(metadata, "sentiment"))
  }

  /** `v || null` as a text column holds it: NULL for a falsy value, the string otherwise. */
  predicate StoredText(t: Text, v: Value)
  {
    if Truthy(v) then v.Str? && t == Some(v.s) else t.None?
  }

  /** The assistant's turn: the reply, with no intent or sentiment. */
  predicate AssistantTurn(t: Turn, leadId: nat, organizationId: nat, response: string)
  {
    && t.leadId == leadId && t.organizationId == organizationId && t.role == "assistant" && t.content == response
    && t.intent.None? && t.sentiment.None? && t.entitiesExtracted == map[]
  }

  /** Replies of `GET /api/conversation/:userId`. */
  datatype ConversationResponse = LeadNotFound | Conversation(userId: string, lead: Lead, conversation: seq<ConversationRepository.HistoryRow>)

  method GetConversation(db: Database, organizationId: nat, userId: string) returns (resp: ConversationResponse)
    requires db.Valid()
    ensures resp.LeadNotFound? <==> IdForKey(db.leads, DedupKey(organizationId, "web", userId)).None?
    ensures resp.Conversation? ==>
      var id := IdForKey(db.leads, DedupKey(organizationId, "web", userId)).value;
      && resp.userId == userId && resp.lead == db.leads[id]
      && resp.conversation == ConversationRepository.History(db.conversations, id, ConversationRepository.DefaultHistoryLimit)
  {
    var lead := LeadRepository.GetLeadByPlatformUser(db, organizationId, "web", userId);
    if lead.None? {
      return LeadNotFound;
    }
    var conversation := ConversationRepository.GetConversationHistory(db, lead.value.id);
    resp := Conversation(userId, lead.value, conversation);
  }

  /** Replies of `DELETE /api/conversation/:userId`. */
  datatype DeleteResponse = NothingToClear | Cleared

  method DeleteConversation(db: Database, organizationId: nat, userId: string) returns (resp: DeleteResponse)
    requires db.Valid()
    modifies db`conversations
    ensures db.Valid()
    ensures resp == NothingToClear <==> IdForKey(db.leads, DedupKey(organizationId, "web", userId)).None?
    ensures resp == NothingToClear ==> db.conversations == old(db.conversations)
    ensures resp == Cleared ==>
      db.conversations == ConversationRepository.Without(old(db.conversations), IdForKey(db.leads, DedupKey(organizationId, "web", userId)).value)
  {
    var lead := LeadRepository.GetLeadByPlatformUser(db, organizationId, "web", userId);
    if lead.None? {
      return NothingToClear;
    }
    ConversationRepository.ClearConversation(db, lead.value.id);
    resp := Cleared;
  }
}
