/** The conversation ledger over the `conversations` table: append a turn, read a
    lead's history in timestamp order with a limit, delete a lead's turns, count them. */
module ConversationRepository {
  import opened Wrappers
  import opened JsValues
  import opened Db

  /** The `metadata` argument of addMessage; a missing property is `Null`. */
  datatype TurnMetadata = TurnMetadata(intent: Value, sentiment: Value, entitiesExtracted: Value)

  /** The default `metadata = {}`. */
  const NoMetadata := TurnMetadata(Null, Null, Null)

  /** `x || null` bound to a text column: falsy values become NULL, a string is stored
      as it is, anything else is refused. */
  function TextParam(v: Value): Option<Text>
  {
    if !Truthy(v) then Some(None) else if v.Str? then Some(Some(v.s)) else None
  }

  /** `JSON.stringify(x || {})` bound to the jsonb column. */
  function JsonParam(v: Value): Option<map<string, Value>>
  {
    if !Truthy(v) then Some(map[]) else if v.Obj? then Some(v.fields) else None
  }

  /** A metadata value the model does not bind. */
  predicate BadMetadata(m: TurnMetadata)
  {
    || (Truthy(m.intent) && !m.intent.Str?)
    || (Truthy(m.sentiment) && !m.sentiment.Str?)
    || (Truthy(m.entitiesExtracted) && !m.entitiesExtracted.Obj?)
  }

  /** The row the INSERT adds, or the error it raises: values are bound before the
      foreign key to `leads` is checked. */
  function InsertTurn(leads: map<nat, Lead>, leadId: nat, organizationId: nat, role: string, content: string,
                      metadata: TurnMetadata, now: nat): Result<Turn, DbError>
  {
    match (TextParam(metadata.intent), TextParam(metadata.sentiment), JsonParam(metadata.entitiesExtracted))
    case (None, _, _) => Err(InvalidValue("intent"))
    case (_, None, _) => Err(InvalidValue("sentiment"))
    case (_, _, None) => Err(InvalidValue("entities_extracted"))
    case (Some(intent), Some(sentiment), Some(entities)) =>
      if leadId !in leads then Err(ForeignKeyViolation)
      else Ok(Turn(leadId, organizationId, role, content, intent, sentiment, entities, now))
  }

  /** A later row appended to the table keeps its invariant. */
  lemma AppendKeepsTable(turns: seq<Turn>, leads: map<nat, Lead>, clock: nat, t: Turn)
    requires TurnTable(turns, leads, clock) && t.leadId in leads && t.timestamp == clock + 1
    ensures TurnTable(turns + [t], leads, clock + 1)
  {
    var r := turns + [t];
    forall i, j | 0 <= i < j < |r| ensures r[i].timestamp < r[j].timestamp {
      if j < |turns| {
        assert r[i] == turns[i] && r[j] == turns[j];
      } else {
        assert r[i] == turns[i];
      }
    }
  }

  method AddMessage(db: Database, leadId: nat, organizationId: nat, role: string, content: string,
                    metadata: TurnMetadata) returns (r: Result<Turn, DbError>)
    requires db.Valid()
    modifies db
    ensures db.Valid()
    ensures db.leads == old(db.leads) && db.nextLeadId == old(db.nextLeadId) && db.clock == old(db.clock) + 1
    ensures r == InsertTurn(old(db.leads), leadId, organizationId, role, content, metadata, db.clock)
    ensures r.Ok? ==> db.conversations == old(db.conversations) + [r.value]
    ensures r.Err? ==> db.conversations == old(db.conversations)
  {
    var now := db.Tick();
    r := InsertTurn(db.leads, leadId, organizationId, role, content, metadata, now);
    if r.Ok? {
      AppendKeepsTable(db.conversations, db.leads, now - 1, r.value);
      db.conversations := db.conversations + [r.value];
    }
  }

  /** What the INSERT stores: the given lead, organization, role and content at `now`;
      falsy intent and sentiment become NULL and missing entities `{}`. It fails exactly
      on an unbindable value or an unknown lead. */
  lemma InsertTurnMeaning(leads: map<nat, Lead>, leadId: nat, organizationId: nat, role: string, content: string,
                          metadata: TurnMetadata, now: nat)
    ensures var r := InsertTurn(leads, leadId, organizationId, role, content, metadata, now);
      && (r.Ok? <==> !BadMetadata(metadata) && leadId in leads)
      && (BadMetadata(metadata) ==> r.Err? && r.error.InvalidValue?)
      && (!BadMetadata(metadata) && leadId !in leads ==> r == Err(ForeignKeyViolation))
      && (r.Ok? ==> r.value.leadId == leadId && r.value.organizationId == organizationId)
      && (r.Ok? ==> r.value.role == role && r.value.content == content && r.value.timestamp == now)
      && (r.Ok? ==> r.value.intent == (if Truthy(metadata.intent) then Some(metadata.intent.s) else None))
      && (r.Ok? ==> r.value.sentiment == (if Truthy(metadata.sentiment) then Some(metadata.sentiment.s) else None))
      && (r.Ok? ==> r.value.entitiesExtracted == (if Truthy(metadata.entitiesExtracted) then metadata.entitiesExtracted.fields else map[]))
  {
  }

  lemma {:induction false} OwnedByAppend(turns: seq<Turn>, t: Turn, leadId: nat)
    ensures OwnedBy(turns + [t], leadId) == OwnedBy(turns, leadId) + (if t.leadId == leadId then [t] else [])
  {
    if turns == [] {
      assert [t][1..] == [];
    } else {
      assert (turns + [t])[1..] == turns[1..] + [t];
      OwnedByAppend(turns[1..], t, leadId);
    }
  }

  /** Appending a turn raises its lead's count by one and no other lead's. */
  lemma AppendCounts(turns: seq<Turn>, t: Turn, leadId: nat)
    ensures |OwnedBy(turns + [t], leadId)| == |OwnedBy(turns, leadId)| + (if t.leadId == leadId then 1 else 0)
  {
    OwnedByAppend(turns, t, leadId);
  }

  /** One row of getConversationHistory: `SELECT role, content, intent, sentiment, timestamp`. */
  datatype HistoryRow = HistoryRow(role: string, content: string, intent: Text, sentiment: Text, timestamp: nat)

  function RowOf(t: Turn): HistoryRow
  {
    HistoryRow(t.role, t.content, t.intent, t.sentiment, t.timestamp)
  }

  /** The default `limit = 50`. */
  const DefaultHistoryLimit: nat := 50

  /** A scan of the table for `lead_id = $1`, stopping after `limit` rows. */
  function History(turns: seq<Turn>, leadId: nat, limit: nat): (rows: seq<HistoryRow>)
    ensures |rows| == Min(limit, |OwnedBy(turns, leadId)|)
    ensures forall i :: 0 <= i < |rows| ==> rows[i] == RowOf(OwnedBy(turns, leadId)[i])
  {
    if turns == [] || limit == 0 then []
    else if turns[0].leadId == leadId then [RowOf(turns[0])] + History(turns[1..], leadId, limit - 1)
    else History(turns[1..], leadId, limit)
  }

  /** `ORDER BY timestamp ASC LIMIT $2`: the history is in ascending timestamp order and,
      when the lead has more turns than `limit`, holds the earliest ones. */
  lemma HistoryEarliestFirst(turns: seq<Turn>, leadId: nat, limit: nat, rows: seq<HistoryRow>)
    requires Chronological(turns) && rows == History(turns, leadId, limit)
    ensures forall i, j :: 0 <= i < j < |rows| ==> rows[i].timestamp < rows[j].timestamp
    ensures forall i, j :: 0 <= i < |rows| <= j < |OwnedBy(turns, leadId)| ==> rows[i].timestamp < OwnedBy(turns, leadId)[j].timestamp
  {
    OwnedByChronological(turns, leadId);
  }

  method GetConversationHistory(db: Database, leadId: nat, limit: nat := DefaultHistoryLimit) returns (rows: seq<HistoryRow>)
    requires db.Valid()
    ensures |rows| == Min(limit, |OwnedBy(db.conversations, leadId)|)
    ensures forall i :: 0 <= i < |rows| ==> rows[i] == RowOf(OwnedBy(db.conversations, leadId)[i])
    ensures forall i, j :: 0 <= i < j < |rows| ==> rows[i].timestamp < rows[j].timestamp
  {
    rows := History(db.conversations, leadId, limit);
    HistoryEarliestFirst(db.conversations, leadId, limit, rows);
  }

  /** The table after `DELETE FROM conversations WHERE lead_id = $1`. */
  function Without(turns: seq<Turn>, leadId: nat): (r: seq<Turn>)
    ensures |r| <= |turns|
    ensures forall t :: t in r <==> t in turns && t.leadId != leadId
  {
    if turns == [] then []
    else (if turns[0].leadId != leadId then [turns[0]] else []) + Without(turns[1..], leadId)
  }

  /** Deleting one lead's rows leaves every other lead's rows, in order, and none of its own. */
  lemma {:induction false} WithoutOwned(turns: seq<Turn>, leadId: nat, other: nat)
    ensures OwnedBy(Without(turns, leadId), other) == if other == leadId then [] else OwnedBy(turns, other)
  {
    if turns != [] {
      WithoutOwned(turns[1..], leadId, other);
      var t := turns[0];
      var rest := Without(turns[1..], leadId);
      if t.leadId != leadId {
        assert Without(turns, leadId) == [t] + rest;
        assert ([t] + rest)[1..] == rest;
        assert OwnedBy([t] + rest, other) == (if t.leadId == other then [t] else []) + OwnedBy(rest, other);
      } else {
        assert Without(turns, leadId) == rest;
      }
    }
  }

  /** The rows left after a delete keep the table's timestamp order. */
  lemma {:induction false} WithoutChronological(turns: seq<Turn>, leadId: nat)
    requires Chronological(turns)
    ensures Chronological(Without(turns, leadId))
  {
    if turns != [] {
      var rest := Without(turns[1..], leadId);
      ChronologicalTail(turns);
      WithoutChronological(turns[1..], leadId);
      if turns[0].leadId != leadId {
        ChronologicalCons(turns[0], rest);
      } else {
        assert Without(turns, leadId) == rest;
      }
    }
  }

  method ClearConversation(db: Database, leadId: nat)
    requires db.Valid()
    modifies db`conversations
    ensures db.Valid()
    ensures db.conversations == Without(old(db.conversations), leadId)
  {
    WithoutChronological(db.conversations, leadId);
    db.conversations := Without(db.conversations, leadId);
  }

  /** `COUNT(*) ... WHERE lead_id = $1`, counted row by row. */
  function CountOf(turns: seq<Turn>, leadId: nat): (n: nat)
    ensures n == |OwnedBy(turns, leadId)|
  {
    if turns == [] then 0 else (if turns[0].leadId == leadId then 1 else 0) + CountOf(turns[1..], leadId)
  }

  method GetConversationCount(db: Database, leadId: nat) returns (n: nat)
    requires db.Valid()
    ensures n == |OwnedBy(db.conversations, leadId)|
  {
    n := CountOf(db.conversations, leadId);
  }

  /** After clearConversation the lead's count is 0 and every other lead's is unchanged. */
  lemma ClearCounts(turns: seq<Turn>, leadId: nat, other: nat)
    ensures CountOf(Without(turns, leadId), other) == if other == leadId then 0 else CountOf(turns, other)
  {
    WithoutOwned(turns, leadId, other);
  }
}
