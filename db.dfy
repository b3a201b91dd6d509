/** The PostgreSQL state the repositories share: the `leads` table keyed by id,
    the `conversations` table in insertion order, and the clock behind `NOW()`.
    Table constraints (primary key, the unique dedup key, the foreign key from a
    conversation row to its lead) are stated by `Database.Valid`. */
module Db {
  import opened Wrappers
  import opened JsValues

  /** A nullable text column. */
  type Text = Option<string>

  /** One row of `leads`. */
  datatype Lead = Lead(
    id: nat,
    organizationId: nat,
    platform: string,
    platformUserId: string,
    entities: map<string, Value>,
    name: Text,
    email: Text,
    phone: Text,
    company: Text,
    intent: Text,
    sentiment: Text,
    urgency: Text,
    status: Text,
    confidence: Option<real>,
    leadScore: int,
    messageCount: int,
    platformData: map<string, Value>,
    metadata: map<string, Value>,
    firstMessageAt: nat,
    lastMessageAt: nat,
    createdAt: nat,
    updatedAt: nat)

  /** The unique key `(organization_id, platform, platform_user_id)`. */
  datatype DedupKey = DedupKey(organizationId: nat, platform: string, platformUserId: string)

  function KeyOf(l: Lead): DedupKey
  {
    DedupKey(l.organizationId, l.platform, l.platformUserId)
  }

  /** One row of `conversations`. */
  datatype Turn = Turn(
    leadId: nat,
    organizationId: nat,
    role: string,
    content: string,
    intent: Text,
    sentiment: Text,
    entitiesExtracted: map<string, Value>,
    timestamp: nat)

  /** Why a statement was refused. `UnmodelledColumn` marks an UPDATE of an identity
      or timestamp column, which PostgreSQL would perform but this model refuses;
      `StatementFailed` is a failure from outside the model (lost connection,
      serialization failure). */
  datatype DbError =
    | SyntaxError
    | UnknownColumn(column: string)
    | UnmodelledColumn(column: string)
    | MultipleAssignments(column: string)
    | InvalidValue(column: string)
    | ForeignKeyViolation
    | StatementFailed

  function Min(a: int, b: int): int { if a <= b then a else b }

  ghost predicate UniqueKeys(leads: map<nat, Lead>)
  {
    forall a, b :: a in leads && b in leads && KeyOf(leads[a]) == KeyOf(leads[b]) ==> a == b
  }

  ghost predicate DistinctCreation(leads: map<nat, Lead>)
  {
    forall a, b :: a in leads && b in leads && a != b ==> leads[a].createdAt != leads[b].createdAt
  }

  /** Primary key, serial ids below `nextId`, the dedup key unique, creation times in the past and distinct. */
  ghost predicate LeadTable(leads: map<nat, Lead>, nextId: nat, clock: nat)
  {
    && (forall id :: id in leads ==> leads[id].id == id && id < nextId && leads[id].createdAt <= clock)
    && UniqueKeys(leads)
    && DistinctCreation(leads)
  }

  /** Timestamps strictly increase in insertion order, lie in the past, and every row's lead exists. */
  ghost predicate TurnTable(turns: seq<Turn>, leads: map<nat, Lead>, clock: nat)
  {
    && Chronological(turns)
    && (forall i :: 0 <= i < |turns| ==> turns[i].timestamp <= clock && turns[i].leadId in leads)
  }

  ghost predicate Chronological(turns: seq<Turn>)
  {
    forall i, j :: 0 <= i < j < |turns| ==> turns[i].timestamp < turns[j].timestamp
  }

  /** The id of the lead holding `key`, if any (at most one does, by `UniqueKeys`). */
  ghost function IdForKey(leads: map<nat, Lead>, key: DedupKey): (r: Option<nat>)
    ensures r.Some? ==> r.value in leads && KeyOf(leads[r.value]) == key
    ensures r.None? <==> forall id :: id in leads ==> KeyOf(leads[id]) != key
  {
    if exists id :: id in leads && KeyOf(leads[id]) == key then
      Some(var id :| id in leads && KeyOf(leads[id]) == key; id)
    else
      None
  }

  /** Under the unique constraint the lead holding a key is the one `IdForKey` names. */
  lemma IdForKeyUnique(leads: map<nat, Lead>, id: nat, key: DedupKey)
    requires UniqueKeys(leads) && id in leads && KeyOf(leads[id]) == key
    ensures IdForKey(leads, key) == Some(id)
  {
  }

  /** The rows of `turns` that belong to `leadId`, in table order: `WHERE lead_id = $1`. */
  function OwnedBy(turns: seq<Turn>, leadId: nat): (r: seq<Turn>)
    ensures |r| <= |turns|
    ensures forall t :: t in r <==> t in turns && t.leadId == leadId
  {
    if turns == [] then []
    else (if turns[0].leadId == leadId then [turns[0]] else []) + OwnedBy(turns[1..], leadId)
  }

  /** A lead's rows keep the table's timestamp order. */
  lemma {:induction false} OwnedByChronological(turns: seq<Turn>, leadId: nat)
    requires Chronological(turns)
    ensures Chronological(OwnedBy(turns, leadId))
  {
    if turns != [] {
      ChronologicalTail(turns);
      OwnedByChronological(turns[1..], leadId);
      if turns[0].leadId == leadId {
        ChronologicalCons(turns[0], OwnedBy(turns[1..], leadId));
      }
    }
  }

  lemma ChronologicalTail(turns: seq<Turn>)
    requires Chronological(turns) && turns != []
    ensures Chronological(turns[1..])
    ensures forall t :: t in turns[1..] ==> turns[0].timestamp < t.timestamp
  {
    forall t | t in turns[1..] ensures turns[0].timestamp < t.timestamp {
      var k :| 0 <= k < |turns[1..]| && turns[1..][k] == t;
      assert turns[k + 1] == t;
    }
  }

  lemma ChronologicalCons(t: Turn, rest: seq<Turn>)
    requires Chronological(rest)
    requires forall u :: u in rest ==> t.timestamp < u.timestamp
    ensures Chronological([t] + rest)
  {
    var r := [t] + rest;
    forall i, j | 0 <= i < j < |r| ensures r[i].timestamp < r[j].timestamp {
      assert r[j] == rest[j - 1] && r[j] in rest;
      if i > 0 {
        assert r[i] == rest[i - 1];
      }
    }
  }

  class Database {
    var leads: map<nat, Lead>
    var conversations: seq<Turn>
    /** The value `NOW()` returned last. */
    var clock: nat
    /** The next value of the `leads.id` sequence. */
    var nextLeadId: nat

    ghost predicate Valid()
      reads this
    {
      LeadTable(leads, nextLeadId, clock) && TurnTable(conversations, leads, clock)
    }

    constructor ()
      ensures Valid()
      ensures leads == map[] && conversations == [] && clock == 0 && nextLeadId == 0
    {
      leads, conversations, clock, nextLeadId := map[], [], 0, 0;
    }

    /** `NOW()` for the next statement, later than every value handed out before. */
    method Tick() returns (now: nat)
      requires Valid()
      modifies this`clock
      ensures Valid()
      ensures clock == old(clock) + 1 && now == clock
    {
      clock := clock + 1;
      now := clock;
    }
  }
}
