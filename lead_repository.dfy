/** `LeadRepository` of platform-integrations/db/repositories/lead-repository.js:
    the upsert keyed by `(organization_id, platform, platform_user_id)`, the
    field-by-field `UPDATE` builder, and the read queries. SQL statements are
    values (`UpdateStatement`, `SelectStatement`) whose meaning on the `leads`
    table is given by functions; each repository method builds the statement the
    way the code does and runs it as one atomic step on a `Db.Database`. */
module LeadRepository {
  import opened Wrappers
  import opened JsValues
  import Strings = Text
  import opened Db

  // ---------------------------------------------------------------------------
  // findOrCreate: INSERT ... ON CONFLICT (dedup key) DO UPDATE ... RETURNING *
  // ---------------------------------------------------------------------------

  /** The row the INSERT creates; the columns it does not list take their defaults. */
  function NewLead(id: nat, key: DedupKey, platformData: map<string, Value>, now: nat): Lead
  {
    Lead(id, key.organizationId, key.platform, key.platformUserId, map[],
         None, None, None, None, None, None, None, None, None,
         0, 1, platformData, map[], now, now, now, now)
  }

  /** The conflict branch: `last_message_at = NOW()`, `message_count + 1`, `platform_data = EXCLUDED.platform_data`. */
  function Touched(l: Lead, platformData: map<string, Value>, now: nat): Lead
  {
    l.(lastMessageAt := now, messageCount := l.messageCount + 1, platformData := platformData)
  }

  datatype Upserted = Upserted(leads: map<nat, Lead>, nextLeadId: nat, lead: Lead)

  /** The effect of the upsert on the table, the id sequence and the row it returns.
      PostgreSQL evaluates the serial default before it detects the conflict, so the
      sequence advances on both branches and a conflicting upsert leaves a gap. */
  ghost function Upsert(leads: map<nat, Lead>, nextId: nat, key: DedupKey, platformData: map<string, Value>, now: nat): Upserted
  {
    match IdForKey(leads, key)
    case Some(id) =>
      var l := Touched(leads[id], platformData, now);
      Upserted(leads[id := l], nextId + 1, l)
    case None =>
      var l := NewLead(nextId, key, platformData, now);
      Upserted(leads[nextId := l], nextId + 1, l)
  }

  method FindOrCreate(db: Database, organizationId: nat, platform: string, platformUserId: string,
                      platformData: map<string, Value>) returns (lead: Lead)
    requires db.Valid()
    modifies db
    ensures db.Valid()
    ensures db.clock == old(db.clock) + 1 && db.conversations == old(db.conversations)
    ensures Upserted(db.leads, db.nextLeadId, lead)
         == Upsert(old(db.leads), old(db.nextLeadId), DedupKey(organizationId, platform, platformUserId), platformData, db.clock)
    ensures lead.id in db.leads && db.leads[lead.id] == lead
  {
    var now := db.Tick();
    var key := DedupKey(organizationId, platform, platformUserId);
    UpsertKeepsTable(db.leads, db.nextLeadId, now - 1, key, platformData, now);
    if exists id :: id in db.leads && KeyOf(db.leads[id]) == key {
      var id :| id in db.leads && KeyOf(db.leads[id]) == key;
      IdForKeyUnique(db.leads, id, key);
      lead := Touched(db.leads[id], platformData, now);
      db.leads := db.leads[id := lead];
      db.nextLeadId := db.nextLeadId + 1;
    } else {
      lead := NewLead(db.nextLeadId, key, platformData, now);
      db.leads := db.leads[lead.id := lead];
      db.nextLeadId := db.nextLeadId + 1;
    }
  }

  /** On an unseen key the upsert inserts exactly one row, holding the given snapshot. */
  lemma UpsertInserts(leads: map<nat, Lead>, nextId: nat, clock: nat, key: DedupKey, platformData: map<string, Value>, now: nat)
    requires LeadTable(leads, nextId, clock) && now > clock
    requires IdForKey(leads, key).None?
    ensures var u := Upsert(leads, nextId, key, platformData, now);
      && u.lead.id !in leads && u.leads.Keys == leads.Keys + {u.lead.id} && |u.leads| == |leads| + 1
      && KeyOf(u.lead) == key && u.lead.platformData == platformData
      && u.lead.firstMessageAt == now && u.lead.messageCount == 1
      && (forall id :: id in leads ==> u.leads[id] == leads[id])
  {
    assert nextId !in leads;
  }

  /** On a known key the upsert creates no row: it counts the message, stamps
      `last_message_at` and replaces `platform_data` wholesale, and keeps the rest. */
  lemma UpsertUpdates(leads: map<nat, Lead>, nextId: nat, key: DedupKey, platformData: map<string, Value>, now: nat, id: nat)
    requires IdForKey(leads, key) == Some(id)
    ensures var u := Upsert(leads, nextId, key, platformData, now);
      && u.leads == leads[id := u.lead] && u.nextLeadId == nextId + 1
      && u.lead.id == leads[id].id && KeyOf(u.lead) == key
      && u.lead.messageCount == leads[id].messageCount + 1 && u.lead.lastMessageAt == now
      && u.lead.platformData == platformData
      && u.lead.entities == leads[id].entities && u.lead.leadScore == leads[id].leadScore
      && u.lead.email == leads[id].email && u.lead.name == leads[id].name && u.lead.phone == leads[id].phone
      && u.lead.company == leads[id].company && u.lead.firstMessageAt == leads[id].firstMessageAt
  {
  }

  /** The upsert keeps every table constraint, in particular one lead per dedup key. */
  lemma UpsertKeepsTable(leads: map<nat, Lead>, nextId: nat, clock: nat, key: DedupKey, platformData: map<string, Value>, now: nat)
    requires LeadTable(leads, nextId, clock) && now > clock
    ensures var u := Upsert(leads, nextId, key, platformData, now);
      LeadTable(u.leads, u.nextLeadId, now) && u.leads[u.lead.id] == u.lead && KeyOf(u.lead) == key
  {
    match IdForKey(leads, key)
    case Some(id) => TouchKeepsTable(leads, nextId, clock, id, platformData, now);
    case None => InsertKeepsTable(leads, nextId, clock, key, platformData, now);
  }

  /** The conflict branch keeps the constraints: the row keeps its id, key and creation time. */
  lemma TouchKeepsTable(leads: map<nat, Lead>, nextId: nat, clock: nat, id: nat, platformData: map<string, Value>, now: nat)
    requires LeadTable(leads, nextId, clock) && now > clock && id in leads
    ensures LeadTable(leads[id := Touched(leads[id], platformData, now)], nextId + 1, now)
  {
    var u := leads[id := Touched(leads[id], platformData, now)];
    forall a, b | a in u && b in u && KeyOf(u[a]) == KeyOf(u[b]) ensures a == b {
      assert KeyOf(u[a]) == KeyOf(leads[a]) && KeyOf(u[b]) == KeyOf(leads[b]);
    }
    forall a, b | a in u && b in u && a != b ensures u[a].createdAt != u[b].createdAt {
      assert u[a].createdAt == leads[a].createdAt && u[b].createdAt == leads[b].createdAt;
    }
  }

  /** The insert branch keeps the constraints: the new row takes a fresh id, an unused key and the newest creation time. */
  lemma InsertKeepsTable(leads: map<nat, Lead>, nextId: nat, clock: nat, key: DedupKey, platformData: map<string, Value>, now: nat)
    requires LeadTable(leads, nextId, clock) && now > clock && IdForKey(leads, key).None?
    ensures LeadTable(leads[nextId := NewLead(nextId, key, platformData, now)], nextId + 1, now)
  {
    var u := leads[nextId := NewLead(nextId, key, platformData, now)];
    assert nextId !in leads;
    forall a, b | a in u && b in u && KeyOf(u[a]) == KeyOf(u[b]) ensures a == b {
      if a != nextId && b != nextId {
        assert u[a] == leads[a] && u[b] == leads[b];
      }
    }
  }

  /** Two upserts with the same key return the same lead, counted once more. */
  lemma UpsertTwice(leads: map<nat, Lead>, nextId: nat, clock: nat, key: DedupKey,
                    first: map<string, Value>, second: map<string, Value>, t1: nat, t2: nat)
    requires LeadTable(leads, nextId, clock) && clock < t1 < t2
    ensures var u1 := Upsert(leads, nextId, key, first, t1);
      var u2 := Upsert(u1.leads, u1.nextLeadId, key, second, t2);
      && u2.lead.id == u1.lead.id && u2.leads.Keys == u1.leads.Keys
      && u2.lead.messageCount == u1.lead.messageCount + 1
  {
    var u1 := Upsert(leads, nextId, key, first, t1);
    UpsertKeepsTable(leads, nextId, clock, key, first, t1);
    assert IdForKey(u1.leads, key) == Some(u1.lead.id);
  }

  /** What `k` upserts of a key no lead held before leave behind: one lead for it,
      with `message_count == k`. `UpsertFirst` starts it at 1 and `UpsertAgain`
      carries it from `k` to `k + 1`, so `n` calls leave a count of `n`. */
  ghost predicate CountedOnce(before: map<nat, Lead>, u: Upserted, key: DedupKey, clock: nat, k: nat)
  {
    && LeadTable(u.leads, u.nextLeadId, clock)
    && IdForKey(u.leads, key) == Some(u.lead.id) && u.leads[u.lead.id] == u.lead
    && u.lead.messageCount == k && u.leads.Keys == before.Keys + {u.lead.id} && u.lead.id !in before
  }

  lemma UpsertFirst(leads: map<nat, Lead>, nextId: nat, clock: nat, key: DedupKey, platformData: map<string, Value>, now: nat)
    requires LeadTable(leads, nextId, clock) && now > clock
    requires IdForKey(leads, key).None?
    ensures CountedOnce(leads, Upsert(leads, nextId, key, platformData, now), key, now, 1)
  {
    UpsertKeepsTable(leads, nextId, clock, key, platformData, now);
    UpsertInserts(leads, nextId, clock, key, platformData, now);
    var w := Upsert(leads, nextId, key, platformData, now);
    IdForKeyUnique(w.leads, w.lead.id, key);
  }

  lemma UpsertAgain(before: map<nat, Lead>, u: Upserted, key: DedupKey, platformData: map<string, Value>,
                    clock: nat, now: nat, k: nat)
    requires CountedOnce(before, u, key, clock, k) && now > clock
    ensures CountedOnce(before, Upsert(u.leads, u.nextLeadId, key, platformData, now), key, now, k + 1)
  {
    var w := Upsert(u.leads, u.nextLeadId, key, platformData, now);
    UpsertKeepsTable(u.leads, u.nextLeadId, clock, key, platformData, now);
    UpsertUpdates(u.leads, u.nextLeadId, key, platformData, now, u.lead.id);
    IdForKeyUnique(w.leads, w.lead.id, key);
  }

  // ---------------------------------------------------------------------------
  // updateLead: UPDATE leads SET <fields>, updated_at = NOW() WHERE id = $n RETURNING *
  // ---------------------------------------------------------------------------

  /** A bound parameter; `Json` marks a value passed through `JSON.stringify`. */
  datatype Param = Plain(v: Value) | Json(v: Value)

  /** `column = $placeholder` in the SET list. */
  datatype Assignment = Assignment(column: string, placeholder: nat)

  /** `UPDATE leads SET <assignments>, updated_at = NOW() WHERE id = $idPlaceholder RETURNING *` with `params`. */
  datatype UpdateStatement = UpdateStatement(assignments: seq<Assignment>, params: seq<Param>, idPlaceholder: nat)

  /** The `updates` object as `Object.entries` lists it. */
  type Updates = seq<(string, Value)>

  predicate DistinctKeys(updates: Updates)
  {
    forall i, j :: 0 <= i < j < |updates| ==> updates[i].0 != updates[j].0
  }

  predicate HasKey(updates: Updates, key: string)
  {
    exists i :: 0 <= i < |updates| && updates[i].0 == key
  }

  /** `updates[key]`: the value of the key, `undefined` when absent. */
  function Get(updates: Updates, key: string): (v: Value)
    ensures !HasKey(updates, key) ==> v == Null
    ensures forall i :: 0 <= i < |updates| && updates[i].0 == key && (forall j :: 0 <= j < i ==> updates[j].0 != key) ==> v == updates[i].1
  {
    if updates == [] then Null
    else if updates[0].0 == key then updates[0].1
    else
      assert forall i :: 1 <= i < |updates| ==> updates[i] == updates[1..][i - 1];
      Get(updates[1..], key)
  }

  /** The keys whose values are `JSON.stringify`d before binding. */
  const JsonEncodedKeys: set<string> := {"entities", "metadata", "platform_data"}

  function ParamFor(key: string, v: Value): Param
  {
    if key in JsonEncodedKeys then Json(v) else Plain(v)
  }

  /** The entity fields mirrored into the same-named columns. */
  predicate IsMirrored(c: Column)
  {
    c == Name || c == Email || c == Phone || c == Company
  }

  /** `updates.entities` is truthy and so is its field for column `c`, which is then assigned. */
  predicate MirroredBy(entities: Value, c: Column)
  {
    IsMirrored(c) && Truthy(entities) && Truthy(Field(entities, ColumnName(c)))
  }

  function MirrorIf(entities: Value, c: Column): seq<Column>
  {
    if Truthy(Field(entities, ColumnName(c))) then [c] else []
  }

  /** The columns `updates.entities` assigns, in the order the code tests them. */
  function MirroredColumns(entities: Value): (cs: seq<Column>)
    ensures forall c :: c in cs <==> MirroredBy(entities, c)
  {
    if !Truthy(entities) then []
    else MirrorIf(entities, Name) + MirrorIf(entities, Email) + MirrorIf(entities, Phone) + MirrorIf(entities, Company)
  }

  /** One SET entry per mirrored column, bound to the entity field of that name. */
  function MirrorEntries(entities: Value, cs: seq<Column>): (r: seq<(string, Param)>)
    ensures |r| == |cs|
  {
    seq(|cs|, j requires 0 <= j < |cs| => (ColumnName(cs[j]), Plain(Field(entities, ColumnName(cs[j])))))
  }

  lemma MirrorEntriesAppend(entities: Value, cs: seq<Column>, c: Column)
    ensures MirrorEntries(entities, cs + [c]) == MirrorEntries(entities, cs) + [(ColumnName(c), Plain(Field(entities, ColumnName(c))))]
  {
  }

  /** The SET entries contributed by `updates.entities`. */
  function MirrorSets(entities: Value): seq<(string, Param)>
  {
    MirrorEntries(entities, MirroredColumns(entities))
  }

  /** The SET entries contributed by the keys of `updates`, in order. */
  function KeySets(updates: Updates): (r: seq<(string, Param)>)
    ensures |r| == |updates|
  {
    seq(|updates|, i requires 0 <= i < |updates| => (updates[i].0, ParamFor(updates[i].0, updates[i].1)))
  }

  function SetList(updates: Updates): seq<(string, Param)>
  {
    MirrorSets(Get(updates, "entities")) + KeySets(updates)
  }

  function NumberedAssignments(sets: seq<(string, Param)>): (r: seq<Assignment>)
    ensures |r| == |sets|
  {
    seq(|sets|, i requires 0 <= i < |sets| => Assignment(sets[i].0, i + 1))
  }

  function BoundValues(sets: seq<(string, Param)>): (r: seq<Param>)
    ensures |r| == |sets|
  {
    seq(|sets|, i requires 0 <= i < |sets| => sets[i].1)
  }

  /** The statement `updateLead(leadId, updates)` sends. */
  function StatementFor(leadId: nat, updates: Updates): UpdateStatement
  {
    var sets := SetList(updates);
    UpdateStatement(NumberedAssignments(sets), BoundValues(sets) + [Plain(Num(leadId as real))], |sets| + 1)
  }

  method PushSet(ghost sets: seq<(string, Param)>, fields: seq<Assignment>, values: seq<Param>, paramIndex: nat,
                 column: string, p: Param)
    returns (fields': seq<Assignment>, values': seq<Param>, paramIndex': nat)
    requires fields == NumberedAssignments(sets) && values == BoundValues(sets) && paramIndex == |sets| + 1
    ensures fields' == NumberedAssignments(sets + [(column, p)]) && values' == BoundValues(sets + [(column, p)])
    ensures paramIndex' == |sets| + 2
  {
    fields' := fields + [Assignment(column, paramIndex)];
    values' := values + [p];
    paramIndex' := paramIndex + 1;
    assert fields' == NumberedAssignments(sets + [(column, p)]);
    assert values' == BoundValues(sets + [(column, p)]);
  }

  /** The `Object.entries(updates).forEach` pass: one SET entry per key, JSON-encoding the jsonb keys. */
  method PushEntries(ghost sets: seq<(string, Param)>, fields: seq<Assignment>, values: seq<Param>, paramIndex: nat,
                     updates: Updates)
    returns (fields': seq<Assignment>, values': seq<Param>, paramIndex': nat)
    requires fields == NumberedAssignments(sets) && values == BoundValues(sets) && paramIndex == |sets| + 1
    ensures fields' == NumberedAssignments(sets + KeySets(updates)) && values' == BoundValues(sets + KeySets(updates))
    ensures paramIndex' == |sets| + |updates| + 1
  {
    fields', values', paramIndex' := fields, values, paramIndex;
    ghost var done := sets;
    var i := 0;
    while i < |updates|
      invariant 0 <= i <= |updates|
      invariant fields' == NumberedAssignments(done) && values' == BoundValues(done) && paramIndex' == |done| + 1
      invariant done == sets + KeySets(updates[..i])
    {
      var (key, value) := updates[i];
      var p := if key in JsonEncodedKeys then Json(value) else Plain(value);
      fields', values', paramIndex' := PushSet(done, fields', values', paramIndex', key, p);
      assert KeySets(updates[..i + 1]) == KeySets(updates[..i]) + [(key, p)];
      done := done + [(key, p)];
      i := i + 1;
    }
    assert updates[..i] == updates;
  }

  /** Builds the SET list the way updateLead does: truthy entity fields first, then
      every key of `updates`, numbering placeholders with one running index. */
  /** `if (updates.entities.<column>) { fields.push(...); values.push(...); paramIndex++ }`
      for one mirrored column `c`, after the columns `cols` were tested. */
  method PushMirror(ghost cols: seq<Column>, entities: Value, c: Column,
                    fields: seq<Assignment>, values: seq<Param>, paramIndex: nat)
    returns (fields': seq<Assignment>, values': seq<Param>, paramIndex': nat)
    requires fields == NumberedAssignments(MirrorEntries(entities, cols))
    requires values == BoundValues(MirrorEntries(entities, cols)) && paramIndex == |cols| + 1
    ensures fields' == NumberedAssignments(MirrorEntries(entities, cols + MirrorIf(entities, c)))
    ensures values' == BoundValues(MirrorEntries(entities, cols + MirrorIf(entities, c)))
    ensures paramIndex' == |cols + MirrorIf(entities, c)| + 1
  {
    fields', values', paramIndex' := fields, values, paramIndex;
    if Truthy(Field(entities, ColumnName(c))) {
      fields', values', paramIndex' :=
        PushSet(MirrorEntries(entities, cols), fields, values, paramIndex, ColumnName(c), Plain(Field(entities, ColumnName(c))));
      MirrorEntriesAppend(entities, cols, c);
    } else {
      assert cols + MirrorIf(entities, c) == cols;
    }
  }

  method BuildUpdate(leadId: nat, updates: Updates) returns (stmt: UpdateStatement)
    ensures stmt == StatementFor(leadId, updates)
    ensures |stmt.params| == |stmt.assignments| + 1 && stmt.idPlaceholder == |stmt.params|
    ensures stmt.params[stmt.idPlaceholder - 1] == Plain(Num(leadId as real))
    ensures forall i :: 0 <= i < |stmt.assignments| ==> stmt.assignments[i].placeholder == i + 1
  {
    var fields: seq<Assignment> := [];
    var values: seq<Param> := [];
    var paramIndex: nat := 1;
    ghost var sets: seq<(string, Param)> := [];
    if Truthy(Get(updates, "entities")) {
      var entities := Get(updates, "entities");
      ghost var cols: seq<Column> := [];
      fields, values, paramIndex := PushMirror(cols, entities, Name, fields, values, paramIndex);
      cols := cols + MirrorIf(entities, Name);
      fields, values, paramIndex := PushMirror(cols, entities, Email, fields, values, paramIndex);
      cols := cols + MirrorIf(entities, Email);
      fields, values, paramIndex := PushMirror(cols, entities, Phone, fields, values, paramIndex);
      cols := cols + MirrorIf(entities, Phone);
      fields, values, paramIndex := PushMirror(cols, entities, Company, fields, values, paramIndex);
      cols := cols + MirrorIf(entities, Company);
      assert cols == MirroredColumns(entities);
      sets := MirrorEntries(entities, cols);
    }
    assert sets == MirrorSets(Get(updates, "entities"));
    fields, values, paramIndex := PushEntries(sets, fields, values, paramIndex, updates);
    values := values + [Plain(Num(leadId as real))];
    stmt := UpdateStatement(fields, values, paramIndex);
  }

  // ----- what PostgreSQL does with an UpdateStatement -----

  /** The columns of `leads` an UPDATE may assign. */
  datatype Column =
    | Name | Email | Phone | Company | Intent | Sentiment | Urgency | Status
    | Confidence | LeadScore | MessageCount | Entities | Metadata | PlatformData

  function ColumnName(c: Column): string
  {
    match c
    case Name => "name"
    case Email => "email"
    case Phone => "phone"
    case Company => "company"
    case Intent => "intent"
    case Sentiment => "sentiment"
    case Urgency => "urgency"
    case Status => "status"
    case Confidence => "confidence"
    case LeadScore => "lead_score"
    case MessageCount => "message_count"
    case Entities => "entities"
    case Metadata => "metadata"
    case PlatformData => "platform_data"
  }

  /** Name resolution for a column of the SET list; `None` for a name `leads` lacks. */
  function ColumnNamed(s: string): (r: Option<Column>)
    ensures r.Some? ==> ColumnName(r.value) == s
    ensures forall c :: ColumnName(c) == s ==> r == Some(c)
  {
    if s == "name" then Some(Name)
    else if s == "email" then Some(Email)
    else if s == "phone" then Some(Phone)
    else if s == "company" then Some(Company)
    else if s == "intent" then Some(Intent)
    else if s == "sentiment" then Some(Sentiment)
    else if s == "urgency" then Some(Urgency)
    else if s == "status" then Some(Status)
    else if s == "confidence" then Some(Confidence)
    else if s == "lead_score" then Some(LeadScore)
    else if s == "message_count" then Some(MessageCount)
    else if s == "entities" then Some(Entities)
    else if s == "metadata" then Some(Metadata)
    else if s == "platform_data" then Some(PlatformData)
    else None
  }

  /** Distinct columns have distinct names. */
  lemma ColumnNameInjective(a: Column, b: Column)
    requires ColumnName(a) == ColumnName(b)
    ensures a == b
  {
    var r := ColumnNamed(ColumnName(a));
  }

  datatype Kind = TextColumn | RealColumn | IntColumn | JsonColumn

  function KindOf(c: Column): Kind
  {
    match c
    case Confidence => RealColumn
    case LeadScore => IntColumn
    case MessageCount => IntColumn
    case Entities => JsonColumn
    case Metadata => JsonColumn
    case PlatformData => JsonColumn
    case _ => TextColumn
  }

  /** The content of one column. */
  datatype Cell = TextCell(t: Text) | RealCell(r: Option<real>) | IntCell(i: int) | JsonCell(m: map<string, Value>)

  predicate Fits(kind: Kind, cell: Cell)
  {
    match kind
    case TextColumn => cell.TextCell?
    case RealColumn => cell.RealCell?
    case IntColumn => cell.IntCell?
    case JsonColumn => cell.JsonCell?
  }

  /** What a bound parameter stores in a column of the given kind; `None` when the bind is
      refused. A JSON-encoded object lands in a jsonb column as that same object. */
  function Bind(kind: Kind, p: Param): (r: Option<Cell>)
    ensures r.Some? ==> Fits(kind, r.value)
    ensures kind == JsonColumn ==> (r.Some? <==> p.Json? && p.v.Obj?)
    ensures kind == TextColumn ==> (r == Some(TextCell(None)) <==> p == Plain(Null))
    ensures kind == TextColumn && p.Plain? && p.v.Str? ==> r == Some(TextCell(Some(p.v.s)))
    ensures kind == TextColumn && r.Some? && r.value.t.Some? ==> p == Plain(Str(r.value.t.value))
    ensures kind == IntColumn ==> (r.Some? <==> p.Plain? && BindInt(p.v).Some?)
    ensures kind == IntColumn && r.Some? ==> r.value == IntCell(BindInt(p.v).value)
  {
    match kind
    case TextColumn =>
      if p == Plain(Null) then Some(TextCell(None))
      else if p.Plain? && p.v.Str? then Some(TextCell(Some(p.v.s)))
      else None
    case RealColumn =>
      if p == Plain(Null) then Some(RealCell(None))
      else if p.Plain? && p.v.Num? then Some(RealCell(Some(p.v.n)))
      else None
    case IntColumn =>
      if p.Plain? && BindInt(p.v).Some? then Some(IntCell(BindInt(p.v).value)) else None
    case JsonColumn =>
      if p.Json? && p.v.Obj? then Some(JsonCell(p.v.fields)) else None
  }

  function ColumnOf(l: Lead, c: Column): (r: Cell)
    ensures Fits(KindOf(c), r)
  {
    match c
    case Name => TextCell(l.name)
    case Email => TextCell(l.email)
    case Phone => TextCell(l.phone)
    case Company => TextCell(l.company)
    case Intent => TextCell(l.intent)
    case Sentiment => TextCell(l.sentiment)
    case Urgency => TextCell(l.urgency)
    case Status => TextCell(l.status)
    case Confidence => RealCell(l.confidence)
    case LeadScore => IntCell(l.leadScore)
    case MessageCount => IntCell(l.messageCount)
    case Entities => JsonCell(l.entities)
    case Metadata => JsonCell(l.metadata)
    case PlatformData => JsonCell(l.platformData)
  }

  /** Stores `cell` in column `c`; a cell of the wrong kind is never produced by `Bind`. */
  function SetColumn(l: Lead, c: Column, cell: Cell): Lead
  {
    match (c, cell)
    case (Name, TextCell(t)) => l.(name := t)
    case (Email, TextCell(t)) => l.(email := t)
    case (Phone, TextCell(t)) => l.(phone := t)
    case (Company, TextCell(t)) => l.(company := t)
    case (Intent, TextCell(t)) => l.(intent := t)
    case (Sentiment, TextCell(t)) => l.(sentiment := t)
    case (Urgency, TextCell(t)) => l.(urgency := t)
    case (Status, TextCell(t)) => l.(status := t)
    case (Confidence, RealCell(r)) => l.(confidence := r)
    case (LeadScore, IntCell(i)) => l.(leadScore := i)
    case (MessageCount, IntCell(i)) => l.(messageCount := i)
    case (Entities, JsonCell(m)) => l.(entities := m)
    case (Metadata, JsonCell(m)) => l.(metadata := m)
    case (PlatformData, JsonCell(m)) => l.(platformData := m)
    case _ => l
  }

  /** The columns an UPDATE never assigns in this model. */
  predicate SameIdentity(l: Lead, l': Lead)
  {
    l'.id == l.id && KeyOf(l') == KeyOf(l) && l'.createdAt == l.createdAt
    && l'.firstMessageAt == l.firstMessageAt && l'.lastMessageAt == l.lastMessageAt
  }

  /** Assigning one column stores the cell there and leaves every other column as it was. */
  lemma SetColumnEffect(l: Lead, c: Column, cell: Cell)
    requires Fits(KindOf(c), cell)
    ensures ColumnOf(SetColumn(l, c, cell), c) == cell
    ensures forall d :: d != c ==> ColumnOf(SetColumn(l, c, cell), d) == ColumnOf(l, d)
    ensures SameIdentity(l, SetColumn(l, c, cell)) && SetColumn(l, c, cell).updatedAt == l.updatedAt
  {
  }

  /** Applies bound SET entries left to right. */
  function ApplyAll(l: Lead, cells: seq<(Column, Cell)>): Lead
    decreases |cells|
  {
    if cells == [] then l else ApplyAll(SetColumn(l, cells[0].0, cells[0].1), cells[1..])
  }

  predicate CellsFit(cells: seq<(Column, Cell)>)
  {
    forall i :: 0 <= i < |cells| ==> Fits(KindOf(cells[i].0), cells[i].1)
  }

  predicate DistinctColumns(cells: seq<(Column, Cell)>)
  {
    forall i, j :: 0 <= i < j < |cells| ==> cells[i].0 != cells[j].0
  }

  /** Each assigned column ends with its cell; every other column is as before. */
  lemma {:induction false} ApplyAllEffect(l: Lead, cells: seq<(Column, Cell)>)
    requires CellsFit(cells) && DistinctColumns(cells)
    ensures forall i :: 0 <= i < |cells| ==> ColumnOf(ApplyAll(l, cells), cells[i].0) == cells[i].1
    ensures forall c :: (forall i :: 0 <= i < |cells| ==> cells[i].0 != c) ==> ColumnOf(ApplyAll(l, cells), c) == ColumnOf(l, c)
    ensures SameIdentity(l, ApplyAll(l, cells)) && ApplyAll(l, cells).updatedAt == l.updatedAt
    decreases |cells|
  {
    if cells != [] {
      var l1 := SetColumn(l, cells[0].0, cells[0].1);
      var rest := cells[1..];
      assert forall j :: 0 <= j < |rest| ==> rest[j] == cells[j + 1];
      SetColumnEffect(l, cells[0].0, cells[0].1);
      ApplyAllEffect(l1, rest);
      forall i | 0 <= i < |cells| ensures ColumnOf(ApplyAll(l, cells), cells[i].0) == cells[i].1 {
        if i == 0 {
          assert forall j :: 0 <= j < |rest| ==> rest[j].0 != cells[0].0;
        } else {
          assert cells[i] == rest[i - 1];
        }
      }
    }
  }

  function Columns(assignments: seq<Assignment>): (r: seq<string>)
    ensures |r| == |assignments|
    ensures forall i :: 0 <= i < |assignments| ==> r[i] == assignments[i].column
  {
    seq(|assignments|, i requires 0 <= i < |assignments| => assignments[i].column)
  }

  /** The other columns of `leads`: identity and timestamps, which no UPDATE of the
      model assigns (`updated_at` is set by the statement itself). */
  const FixedColumns: set<string> :=
    {"id", "organization_id", "platform", "platform_user_id", "first_message_at", "last_message_at", "created_at", "updated_at"}

  /** A column of `leads`, assignable in this model or not. */
  predicate IsLeadsColumn(s: string)
  {
    ColumnNamed(s).Some? || s in FixedColumns
  }

  /** The first assigned name that is no column of `leads`. */
  function FirstUnknown(columns: seq<string>): (r: Option<string>)
    ensures r.None? <==> forall i :: 0 <= i < |columns| ==> IsLeadsColumn(columns[i])
    ensures r.Some? ==> r.value in columns && !IsLeadsColumn(r.value)
  {
    if columns == [] then None
    else if !IsLeadsColumn(columns[0]) then Some(columns[0])
    else
      assert forall i :: 1 <= i < |columns| ==> columns[i] == columns[1..][i - 1];
      FirstUnknown(columns[1..])
  }

  /** The first assigned name that is an identity or timestamp column. */
  function FirstFixed(columns: seq<string>): (r: Option<string>)
    ensures r.None? <==> forall i :: 0 <= i < |columns| ==> columns[i] !in FixedColumns
    ensures r.Some? ==> r.value in columns && r.value in FixedColumns
  {
    if columns == [] then None
    else if columns[0] in FixedColumns then Some(columns[0])
    else
      assert forall i :: 1 <= i < |columns| ==> columns[i] == columns[1..][i - 1];
      FirstFixed(columns[1..])
  }

  /** A name assigned twice (PostgreSQL: "multiple assignments to same column"). */
  function FirstDuplicate(columns: seq<string>): (r: Option<string>)
    ensures r.None? <==> forall i, j :: 0 <= i < j < |columns| ==> columns[i] != columns[j]
  {
    if columns == [] then None
    else if columns[0] in columns[1..] then Some(columns[0])
    else
      var r := FirstDuplicate(columns[1..]);
      assert r.None? ==> forall i, j :: 0 <= i < j < |columns| ==> columns[i] != columns[j] by {
        if r.None? {
          forall i, j | 0 <= i < j < |columns| ensures columns[i] != columns[j] {
            if i == 0 {
              assert columns[j] == columns[1..][j - 1];
            } else {
              assert columns[i] == columns[1..][i - 1] && columns[j] == columns[1..][j - 1];
            }
          }
        }
      }
      assert r.Some? ==> exists i, j :: 0 <= i < j < |columns| && columns[i] == columns[j] by {
        if r.Some? {
          var i, j :| 0 <= i < j < |columns[1..]| && columns[1..][i] == columns[1..][j];
          assert columns[i + 1] == columns[j + 1];
        }
      }
      r
  }

  predicate Resolved(assignments: seq<Assignment>, params: seq<Param>)
  {
    forall i :: 0 <= i < |assignments| ==>
      ColumnNamed(assignments[i].column).Some? && 1 <= assignments[i].placeholder <= |params|
  }

  /** The cell one SET entry binds, if the bind succeeds. */
  function BindOne(a: Assignment, params: seq<Param>): Option<Cell>
    requires ColumnNamed(a.column).Some? && 1 <= a.placeholder <= |params|
  {
    Bind(KindOf(ColumnNamed(a.column).value), params[a.placeholder - 1])
  }

  /** Binds every SET entry to a cell of its column's kind; the first refused one raises. */
  function BindAll(assignments: seq<Assignment>, params: seq<Param>): (r: Result<seq<(Column, Cell)>, DbError>)
    requires Resolved(assignments, params)
    ensures r.Ok? ==> |r.value| == |assignments| && CellsFit(r.value)
    ensures r.Ok? ==> forall i :: 0 <= i < |assignments| ==>
      Some(r.value[i].0) == ColumnNamed(assignments[i].column) && BindOne(assignments[i], params) == Some(r.value[i].1)
    ensures r.Err? <==> exists i :: 0 <= i < |assignments| && BindOne(assignments[i], params).None?
  {
    if assignments == [] then Ok([])
    else
      var a := assignments[0];
      assert forall i :: 1 <= i < |assignments| ==> assignments[i] == assignments[1..][i - 1];
      match BindOne(a, params)
      case None => Err(InvalidValue(a.column))
      case Some(cell) =>
        match BindAll(assignments[1..], params)
        case Err(e) => Err(e)
        case Ok(rest) => Ok([(ColumnNamed(a.column).value, cell)] + rest)
  }

  /** The `WHERE id = $n` parameter as an integer. */
  function BindId(p: Param): Option<int>
  {
    if p.Plain? && IsIntegral(p.v) then Some(p.v.n.Floor) else None
  }

  /** The statement well formed: a non-empty SET list of known, distinct columns and
      placeholders that all have a parameter. */
  predicate WellFormed(stmt: UpdateStatement)
  {
    && |stmt.assignments| > 0
    && Resolved(stmt.assignments, stmt.params)
    && (forall i, j :: 0 <= i < j < |stmt.assignments| ==> stmt.assignments[i].column != stmt.assignments[j].column)
    && 1 <= stmt.idPlaceholder <= |stmt.params|
  }

  /** The errors PostgreSQL raises before touching a row, in the order it checks; an
      assignment of an identity or timestamp column is refused by the model. */
  function CheckStatement(stmt: UpdateStatement): (r: Option<DbError>)
    ensures r.None? <==> WellFormed(stmt)
  {
    var cols := Columns(stmt.assignments) + ["updated_at"];
    if stmt.assignments == [] then Some(SyntaxError)
    else match FirstUnknown(Columns(stmt.assignments))
    case Some(c) => Some(UnknownColumn(c))
    case None =>
      match FirstDuplicate(cols)
      case Some(c) =>
        DuplicateIllFormed(stmt);
        Some(MultipleAssignments(c))
      case None =>
        match FirstFixed(Columns(stmt.assignments))
        case Some(c) =>
          FixedIllFormed(stmt);
          Some(UnmodelledColumn(c))
        case None =>
          DistinctNamed(stmt);
          if !(Resolved(stmt.assignments, stmt.params) && 1 <= stmt.idPlaceholder <= |stmt.params|) then Some(SyntaxError)
          else None
  }

  /** A name assigned twice, `updated_at` included, makes the statement ill formed. */
  lemma DuplicateIllFormed(stmt: UpdateStatement)
    requires FirstDuplicate(Columns(stmt.assignments) + ["updated_at"]).Some?
    ensures !WellFormed(stmt)
  {
    var cols := Columns(stmt.assignments) + ["updated_at"];
    var i, j :| 0 <= i < j < |cols| && cols[i] == cols[j];
    if j == |stmt.assignments| {
      assert stmt.assignments[i].column == "updated_at";
      assert ColumnNamed("updated_at").None?;
    } else {
      assert stmt.assignments[i].column == stmt.assignments[j].column;
    }
  }

  /** An identity or timestamp column in the SET list makes the statement ill formed here. */
  lemma FixedIllFormed(stmt: UpdateStatement)
    requires FirstFixed(Columns(stmt.assignments)).Some?
    ensures !WellFormed(stmt)
  {
    var cols := Columns(stmt.assignments);
    var c := FirstFixed(cols).value;
    var i :| 0 <= i < |cols| && cols[i] == c;
    assert stmt.assignments[i].column == c && ColumnNamed(c).None?;
  }

  /** With no unknown name and no name twice, every name is a column of `leads`, once. */
  lemma DistinctNamed(stmt: UpdateStatement)
    requires FirstUnknown(Columns(stmt.assignments)).None? && FirstFixed(Columns(stmt.assignments)).None?
    requires FirstDuplicate(Columns(stmt.assignments) + ["updated_at"]).None?
    ensures forall i, j :: 0 <= i < j < |stmt.assignments| ==> stmt.assignments[i].column != stmt.assignments[j].column
    ensures forall i :: 0 <= i < |stmt.assignments| ==> ColumnNamed(stmt.assignments[i].column).Some?
  {
    var cols := Columns(stmt.assignments) + ["updated_at"];
    forall i, j | 0 <= i < j < |stmt.assignments| ensures stmt.assignments[i].column != stmt.assignments[j].column {
      assert cols[i] != cols[j];
    }
    forall i | 0 <= i < |stmt.assignments| ensures ColumnNamed(stmt.assignments[i].column).Some? {
      assert cols[i] != cols[|cols| - 1];
    }
  }

  /** The statement run against the table: the error PostgreSQL raises, or the updated
      row (`RETURNING *`), or `None` when no row has that id (`rows[0]` is undefined). */
  function ExecuteUpdate(leads: map<nat, Lead>, stmt: UpdateStatement, now: nat): (r: Result<Option<Lead>, DbError>)
    ensures r.Ok? ==> WellFormed(stmt)
    ensures r.Ok? && r.value.Some? ==> r.value.value.updatedAt == now
  {
    match CheckStatement(stmt)
    case Some(e) => Err(e)
    case None =>
      match BindAll(stmt.assignments, stmt.params)
      case Err(e) => Err(e)
      case Ok(cells) =>
        match BindId(stmt.params[stmt.idPlaceholder - 1])
        case None => Err(InvalidValue("id"))
        case Some(id) =>
          if id >= 0 && id as nat in leads then Ok(Some(ApplyAll(leads[id as nat], cells).(updatedAt := now)))
          else Ok(None)
  }

  /** Unpacks a successful update: the row it found and the distinct cells it assigned. */
  lemma UpdatedRow(leads: map<nat, Lead>, stmt: UpdateStatement, now: nat) returns (id: nat, cells: seq<(Column, Cell)>)
    requires ExecuteUpdate(leads, stmt, now).Ok? && ExecuteUpdate(leads, stmt, now).value.Some?
    ensures id in leads && BindId(stmt.params[stmt.idPlaceholder - 1]) == Some(id)
    ensures WellFormed(stmt) && BindAll(stmt.assignments, stmt.params) == Ok(cells)
    ensures CellsFit(cells) && DistinctColumns(cells) && |cells| == |stmt.assignments|
    ensures ExecuteUpdate(leads, stmt, now).value.value == ApplyAll(leads[id], cells).(updatedAt := now)
  {
    cells := BindAll(stmt.assignments, stmt.params).value;
    id := BindId(stmt.params[stmt.idPlaceholder - 1]).value as nat;
    forall i, j | 0 <= i < j < |cells| ensures cells[i].0 != cells[j].0 {
      assert stmt.assignments[i].column != stmt.assignments[j].column;
      assert ColumnNamed(stmt.assignments[i].column) == Some(cells[i].0);
      assert ColumnNamed(stmt.assignments[j].column) == Some(cells[j].0);
    }
  }

  method UpdateLead(db: Database, leadId: nat, updates: Updates) returns (r: Result<Option<Lead>, DbError>)
    requires db.Valid()
    modifies db
    ensures db.Valid()
    ensures db.clock == old(db.clock) + 1 && db.nextLeadId == old(db.nextLeadId) && db.conversations == old(db.conversations)
    ensures r == ExecuteUpdate(old(db.leads), StatementFor(leadId, updates), db.clock)
    ensures r.Ok? && r.value.Some? ==> leadId in old(db.leads) && r.value.value.id == leadId
    ensures db.leads == if r.Ok? && r.value.Some? then old(db.leads)[leadId := r.value.value] else old(db.leads)
  {
    var stmt := BuildUpdate(leadId, updates);
    var now := db.Tick();
    r := ExecuteUpdate(db.leads, stmt, now);
    if r.Ok? && r.value.Some? {
      assert (leadId as real).Floor == leadId;
      var id, cells := UpdatedRow(db.leads, stmt, now);
      ApplyAllEffect(db.leads[id], cells);
      UpdateKeepsTable(db.leads, db.nextLeadId, db.clock, leadId, r.value.value);
      db.leads := db.leads[leadId := r.value.value];
    }
  }

  lemma UpdateKeepsTable(leads: map<nat, Lead>, nextId: nat, clock: nat, id: nat, l': Lead)
    requires LeadTable(leads, nextId, clock) && id in leads && SameIdentity(leads[id], l')
    ensures LeadTable(leads[id := l'], nextId, clock)
  {
    var u := leads[id := l'];
    forall a, b | a in u && b in u && KeyOf(u[a]) == KeyOf(u[b]) ensures a == b {
      assert KeyOf(u[a]) == KeyOf(leads[a]) && KeyOf(u[b]) == KeyOf(leads[b]);
    }
    forall a, b | a in u && b in u && a != b ensures u[a].createdAt != u[b].createdAt {
      assert u[a].createdAt == leads[a].createdAt && u[b].createdAt == leads[b].createdAt;
    }
  }

  /** `cells` are what the SET list of `updates` binds: first one per column mirrored
      from `e`, then one per key of `updates`, in order, all of distinct columns. */
  predicate CellsFor(cells: seq<(Column, Cell)>, e: Value, updates: Updates)
  {
    CellsFit(cells) && DistinctColumns(cells) && CellsForColumns(cells, e, MirroredColumns(e), updates)
  }

  /** The first `|cs|` cells mirror the entity fields of columns `cs`, the rest bind the keys of `updates`. */
  predicate CellsForColumns(cells: seq<(Column, Cell)>, e: Value, cs: seq<Column>, updates: Updates)
  {
    && |cells| == |cs| + |updates|
    && (forall j :: 0 <= j < |cs| ==> cells[j].0 == cs[j] && Bind(TextColumn, Plain(Field(e, ColumnName(cs[j])))) == Some(cells[j].1))
    && (forall i :: 0 <= i < |updates| ==>
          && ColumnName(cells[|cs| + i].0) == updates[i].0
          && Bind(KindOf(cells[|cs| + i].0), ParamFor(updates[i].0, updates[i].1)) == Some(cells[|cs| + i].1))
  }

  /** The cells a bound SET list yields, entry by entry. */
  lemma BoundEntries(sets: seq<(string, Param)>, id: Param, cells: seq<(Column, Cell)>)
    requires Resolved(NumberedAssignments(sets), BoundValues(sets) + [id])
    requires BindAll(NumberedAssignments(sets), BoundValues(sets) + [id]) == Ok(cells)
    ensures |cells| == |sets|
    ensures forall i :: 0 <= i < |sets| ==> ColumnName(cells[i].0) == sets[i].0 && Bind(KindOf(cells[i].0), sets[i].1) == Some(cells[i].1)
  {
    var assignments, params := NumberedAssignments(sets), BoundValues(sets) + [id];
    forall i | 0 <= i < |sets|
      ensures ColumnName(cells[i].0) == sets[i].0 && Bind(KindOf(cells[i].0), sets[i].1) == Some(cells[i].1)
    {
      assert assignments[i] == Assignment(sets[i].0, i + 1) && params[i] == sets[i].1;
      assert ColumnNamed(sets[i].0) == Some(cells[i].0);
    }
  }

  /** Bound entries of the mirror part and the key part make `CellsFor`. */
  lemma EntriesCellsFor(e: Value, updates: Updates, cells: seq<(Column, Cell)>)
    requires CellsFit(cells) && DistinctColumns(cells)
    requires var sets := MirrorSets(e) + KeySets(updates);
      |cells| == |sets| &&
      forall i :: 0 <= i < |sets| ==> ColumnName(cells[i].0) == sets[i].0 && Bind(KindOf(cells[i].0), sets[i].1) == Some(cells[i].1)
    ensures CellsFor(cells, e, updates)
  {
    var cs := MirroredColumns(e);
    assert forall c :: c in cs ==> IsMirrored(c);
    MirroredCells(e, cs, updates, cells);
  }

  /** The same, for any list `cs` of mirrored columns in place of the ones `e` selects. */
  lemma MirroredCells(e: Value, cs: seq<Column>, updates: Updates, cells: seq<(Column, Cell)>)
    requires forall c :: c in cs ==> IsMirrored(c)
    requires var sets := MirrorEntries(e, cs) + KeySets(updates);
      |cells| == |sets| &&
      forall i :: 0 <= i < |sets| ==> ColumnName(cells[i].0) == sets[i].0 && Bind(KindOf(cells[i].0), sets[i].1) == Some(cells[i].1)
    ensures CellsForColumns(cells, e, cs, updates)
  {
    var m, k := MirrorEntries(e, cs), KeySets(updates);
    var sets := m + k;
    forall j | 0 <= j < |cs|
      ensures cells[j].0 == cs[j] && Bind(TextColumn, Plain(Field(e, ColumnName(cs[j])))) == Some(cells[j].1)
    {
      assert sets[j] == m[j];
      MirroredCellAt(e, cs, j, cells[j], sets[j]);
    }
    forall i | 0 <= i < |updates|
      ensures ColumnName(cells[|cs| + i].0) == updates[i].0
      ensures Bind(KindOf(cells[|cs| + i].0), ParamFor(updates[i].0, updates[i].1)) == Some(cells[|cs| + i].1)
    {
      assert sets[|m| + i] == k[i] == (updates[i].0, ParamFor(updates[i].0, updates[i].1));
    }
  }

  /** The cell bound by the `j`-th mirrored entry is the text of that entity field. */
  lemma MirroredCellAt(e: Value, cs: seq<Column>, j: nat, cell: (Column, Cell), entry: (string, Param))
    requires j < |cs| && IsMirrored(cs[j])
    requires entry == MirrorEntries(e, cs)[j]
    requires ColumnName(cell.0) == entry.0 && Bind(KindOf(cell.0), entry.1) == Some(cell.1)
    ensures cell.0 == cs[j] && Bind(TextColumn, Plain(Field(e, ColumnName(cs[j])))) == Some(cell.1)
  {
    ColumnNameInjective(cell.0, cs[j]);
  }

  /** A successful updateLead applies the cells its SET list binds. */
  lemma UpdateLeadCells(leads: map<nat, Lead>, leadId: nat, updates: Updates, now: nat) returns (cells: seq<(Column, Cell)>)
    requires leadId in leads
    requires ExecuteUpdate(leads, StatementFor(leadId, updates), now).Ok?
    ensures ExecuteUpdate(leads, StatementFor(leadId, updates), now)
         == Ok(Some(ApplyAll(leads[leadId], cells).(updatedAt := now)))
    ensures CellsFor(cells, Get(updates, "entities"), updates)
  {
    var stmt := StatementFor(leadId, updates);
    var sets := SetList(updates);
    assert (leadId as real).Floor == leadId;
    var id;
    id, cells := UpdatedRow(leads, stmt, now);
    BoundEntries(sets, Plain(Num(leadId as real)), cells);
    EntriesCellsFor(Get(updates, "entities"), updates, cells);
  }

  /** `updated_at` is no column an UPDATE list assigns. */
  lemma StampKeepsColumns(l: Lead, now: nat)
    ensures forall c :: ColumnOf(l.(updatedAt := now), c) == ColumnOf(l, c)
    ensures SameIdentity(l, l.(updatedAt := now))
  {
  }

  lemma CellsStoreKeys(l: Lead, e: Value, updates: Updates, cells: seq<(Column, Cell)>)
    requires CellsFor(cells, e, updates)
    ensures forall i :: 0 <= i < |updates| ==> (ColumnNamed(updates[i].0).Some? &&
      Bind(KindOf(ColumnNamed(updates[i].0).value), ParamFor(updates[i].0, updates[i].1))
        == Some(ColumnOf(ApplyAll(l, cells), ColumnNamed(updates[i].0).value)))
  {
    var cs := MirroredColumns(e);
    ApplyAllEffect(l, cells);
    forall i | 0 <= i < |updates| ensures ColumnNamed(updates[i].0) == Some(cells[|cs| + i].0) {
    }
  }

  lemma CellsMirror(l: Lead, e: Value, updates: Updates, cells: seq<(Column, Cell)>)
    requires CellsFor(cells, e, updates)
    ensures forall c :: MirroredBy(e, c) ==> Bind(TextColumn, Plain(Field(e, ColumnName(c)))) == Some(ColumnOf(ApplyAll(l, cells), c))
  {
    var cs := MirroredColumns(e);
    ApplyAllEffect(l, cells);
    forall c | MirroredBy(e, c) ensures exists j :: 0 <= j < |cs| && cs[j] == c {
      assert c in cs;
    }
  }

  lemma CellsKeepOthers(l: Lead, e: Value, updates: Updates, cells: seq<(Column, Cell)>)
    requires CellsFor(cells, e, updates)
    ensures forall c :: !MirroredBy(e, c) && !HasKey(updates, ColumnName(c)) ==> ColumnOf(ApplyAll(l, cells), c) == ColumnOf(l, c)
    ensures SameIdentity(l, ApplyAll(l, cells))
  {
    var cs := MirroredColumns(e);
    ApplyAllEffect(l, cells);
    forall c, j | !MirroredBy(e, c) && !HasKey(updates, ColumnName(c)) && 0 <= j < |cells| ensures cells[j].0 != c {
      if j < |cs| {
        assert cs[j] in cs;
      } else {
        assert updates[j - |cs|].0 == ColumnName(cells[j].0);
      }
    }
  }

  /** A successful updateLead returns the row it found, with `updated_at` set to the
      statement's `NOW()` and its id, dedup key and timestamps otherwise unchanged. */
  lemma UpdateKeepsIdentity(leads: map<nat, Lead>, leadId: nat, updates: Updates, now: nat)
    requires leadId in leads
    requires ExecuteUpdate(leads, StatementFor(leadId, updates), now).Ok?
    ensures var r := ExecuteUpdate(leads, StatementFor(leadId, updates), now);
      r.value.Some? && SameIdentity(leads[leadId], r.value.value) && r.value.value.updatedAt == now
  {
    var cells := UpdateLeadCells(leads, leadId, updates, now);
    CellsKeepOthers(leads[leadId], Get(updates, "entities"), updates, cells);
    StampKeepsColumns(ApplyAll(leads[leadId], cells), now);
  }

  /** Every key of `updates` names a column and lands in it as given; a JSON-encoded
      object (`entities`, `metadata`, `platform_data`) comes back as that object. */
  lemma UpdateStoresKeys(leads: map<nat, Lead>, leadId: nat, updates: Updates, now: nat)
    requires leadId in leads
    requires ExecuteUpdate(leads, StatementFor(leadId, updates), now).Ok?
    ensures var r := ExecuteUpdate(leads, StatementFor(leadId, updates), now);
      r.value.Some? &&
      forall i :: 0 <= i < |updates| ==> (ColumnNamed(updates[i].0).Some? &&
        Bind(KindOf(ColumnNamed(updates[i].0).value), ParamFor(updates[i].0, updates[i].1))
          == Some(ColumnOf(r.value.value, ColumnNamed(updates[i].0).value)))
  {
    var cells := UpdateLeadCells(leads, leadId, updates, now);
    CellsStoreKeys(leads[leadId], Get(updates, "entities"), updates, cells);
    StampKeepsColumns(ApplyAll(leads[leadId], cells), now);
  }

  /** `key` names a column of `row` that holds the value `v` binds to. */
  ghost predicate StoresKey(row: Lead, key: string, v: Value)
  {
    var c := ColumnNamed(key);
    c.Some? && Bind(KindOf(c.value), ParamFor(key, v)) == Some(ColumnOf(row, c.value))
  }

  /** The key at position `i` of `updates` lands in the column it names. */
  lemma UpdateStoresKeyAt(leads: map<nat, Lead>, leadId: nat, updates: Updates, now: nat, i: nat)
    requires leadId in leads && i < |updates|
    requires ExecuteUpdate(leads, StatementFor(leadId, updates), now).Ok?
    ensures var r := ExecuteUpdate(leads, StatementFor(leadId, updates), now);
      r.value.Some? && StoresKey(r.value.value, updates[i].0, updates[i].1)
  {
    UpdateStoresKeys(leads, leadId, updates, now);
  }

  /** A stored `lead_score` is a whole number or a string of one, and it is the score. */
  lemma StoredScore(row: Lead, v: Value)
    requires StoresKey(row, "lead_score", v)
    ensures BindInt(v) == Some(row.leadScore)
  {
    assert ColumnNamed("lead_score") == Some(LeadScore);
    assert "lead_score" !in JsonEncodedKeys;
  }

  /** Stored `entities` are an object, and they are the row's entities. */
  lemma StoredEntities(row: Lead, v: Value)
    requires StoresKey(row, "entities", v)
    ensures v.Obj? && row.entities == v.fields
  {
    assert ColumnNamed("entities") == Some(Entities);
    assert "entities" in JsonEncodedKeys;
  }

  /** Stored `metadata` is an object, and it is the row's metadata. */
  lemma StoredMetadata(row: Lead, v: Value)
    requires StoresKey(row, "metadata", v)
    ensures v.Obj? && row.metadata == v.fields
  {
    assert ColumnNamed("metadata") == Some(Metadata);
    assert "metadata" in JsonEncodedKeys;
  }

  /** Each truthy `entities.name/email/phone/company` is stored in the column of that name. */
  lemma UpdateMirrorsEntities(leads: map<nat, Lead>, leadId: nat, updates: Updates, now: nat)
    requires leadId in leads
    requires ExecuteUpdate(leads, StatementFor(leadId, updates), now).Ok?
    ensures var r := ExecuteUpdate(leads, StatementFor(leadId, updates), now);
      var e := Get(updates, "entities");
      r.value.Some? && forall c :: MirroredBy(e, c) ==> Bind(TextColumn, Plain(Field(e, ColumnName(c)))) == Some(ColumnOf(r.value.value, c))
  {
    var cells := UpdateLeadCells(leads, leadId, updates, now);
    CellsMirror(leads[leadId], Get(updates, "entities"), updates, cells);
    StampKeepsColumns(ApplyAll(leads[leadId], cells), now);
  }

  /** A column neither named by a key nor mirrored from a truthy entity field keeps its value. */
  lemma UpdateKeepsOthers(leads: map<nat, Lead>, leadId: nat, updates: Updates, now: nat)
    requires leadId in leads
    requires ExecuteUpdate(leads, StatementFor(leadId, updates), now).Ok?
    ensures var r := ExecuteUpdate(leads, StatementFor(leadId, updates), now);
      var e := Get(updates, "entities");
      r.value.Some? && forall c :: !MirroredBy(e, c) && !HasKey(updates, ColumnName(c)) ==> ColumnOf(r.value.value, c) == ColumnOf(leads[leadId], c)
  {
    var cells := UpdateLeadCells(leads, leadId, updates, now);
    CellsKeepOthers(leads[leadId], Get(updates, "entities"), updates, cells);
    StampKeepsColumns(ApplyAll(leads[leadId], cells), now);
  }

  /** `updateLead(id, {})` sends `UPDATE leads SET , updated_at = ...`, which does not parse. */
  lemma UpdateWithoutKeysFails(leads: map<nat, Lead>, leadId: nat, now: nat)
    ensures ExecuteUpdate(leads, StatementFor(leadId, []), now) == Err(SyntaxError)
  {
    assert SetList([]) == [];
  }

  /** A key that names a column the entity mirroring also assigns makes the statement fail:
      the column is assigned twice. */
  lemma MirrorAndKeyClash(leads: map<nat, Lead>, leadId: nat, updates: Updates, now: nat, c: Column)
    requires MirroredBy(Get(updates, "entities"), c) && HasKey(updates, ColumnName(c))
    ensures ExecuteUpdate(leads, StatementFor(leadId, updates), now).Err?
  {
    var stmt := StatementFor(leadId, updates);
    var e := Get(updates, "entities");
    var m := MirrorSets(e);
    var k := KeySets(updates);
    var sets := SetList(updates);
    assert sets == m + k;
    var cs := MirroredColumns(e);
    assert c in cs;
    var j :| 0 <= j < |cs| && cs[j] == c;
    var i :| 0 <= i < |updates| && updates[i].0 == ColumnName(c);
    assert sets[j] == m[j] && sets[|m| + i] == k[i];
    assert stmt.assignments[j].column == stmt.assignments[|m| + i].column;
  }

  /** When updateLead succeeds: the statement is well formed and every SET value binds.
      A successful statement returns a row exactly when the id is in the table. */
  lemma UpdateSucceeds(leads: map<nat, Lead>, leadId: nat, updates: Updates, now: nat)
    ensures var stmt := StatementFor(leadId, updates);
      var r := ExecuteUpdate(leads, stmt, now);
      && (r.Ok? <==> WellFormed(stmt) && BindAll(stmt.assignments, stmt.params).Ok?)
      && (r.Ok? ==> (r.value.Some? <==> leadId in leads))
  {
    var stmt := StatementFor(leadId, updates);
    assert stmt.params[stmt.idPlaceholder - 1] == Plain(Num(leadId as real));
    assert (leadId as real).Floor == leadId;
  }

  /** An update of an id no row has raises no error for it: it fails only where the
      statement itself is bad, and otherwise returns no row. */
  lemma UpdateMissingLead(leads: map<nat, Lead>, leadId: nat, updates: Updates, now: nat)
    requires leadId !in leads
    ensures var stmt := StatementFor(leadId, updates);
      var r := ExecuteUpdate(leads, stmt, now);
      && (WellFormed(stmt) && BindAll(stmt.assignments, stmt.params).Ok? ==> r == Ok(None))
      && (r.Err? ==> !WellFormed(stmt) || BindAll(stmt.assignments, stmt.params).Err?)
  {
    UpdateSucceeds(leads, leadId, updates, now);
  }

  // ---------------------------------------------------------------------------
  // getLeadById, getLeadByPlatformUser: SELECT * ... ; rows[0]
  // ---------------------------------------------------------------------------

  method GetLeadById(db: Database, leadId: nat) returns (r: Option<Lead>)
    requires db.Valid()
    ensures r.Some? <==> leadId in db.leads
    ensures r.Some? ==> r.value == db.leads[leadId] && r.value.id == leadId
  {
    if leadId in db.leads {
      r := Some(db.leads[leadId]);
    } else {
      r := None;
    }
  }

  method GetLeadByPlatformUser(db: Database, organizationId: nat, platform: string, platformUserId: string)
    returns (r: Option<Lead>)
    requires db.Valid()
    ensures r.Some? <==> IdForKey(db.leads, DedupKey(organizationId, platform, platformUserId)).Some?
    ensures r.Some? ==> r.value in db.leads.Values && KeyOf(r.value) == DedupKey(organizationId, platform, platformUserId)
    ensures r.Some? ==> r.value == db.leads[IdForKey(db.leads, DedupKey(organizationId, platform, platformUserId)).value]
  {
    var key := DedupKey(organizationId, platform, platformUserId);
    if exists id :: id in db.leads && KeyOf(db.leads[id]) == key {
      var id :| id in db.leads && KeyOf(db.leads[id]) == key;
      IdForKeyUnique(db.leads, id, key);
      r := Some(db.leads[id]);
    } else {
      r := None;
    }
  }

  /** After findOrCreate, the lookup by platform user finds the row it returned. */
  lemma UpsertThenLookup(leads: map<nat, Lead>, nextId: nat, clock: nat, key: DedupKey, platformData: map<string, Value>, now: nat)
    requires LeadTable(leads, nextId, clock) && now > clock
    ensures var u := Upsert(leads, nextId, key, platformData, now);
      IdForKey(u.leads, key) == Some(u.lead.id) && u.leads[u.lead.id] == u.lead
  {
    var u := Upsert(leads, nextId, key, platformData, now);
    UpsertKeepsTable(leads, nextId, clock, key, platformData, now);
    IdForKeyUnique(u.leads, u.lead.id, key);
  }


  // ---------------------------------------------------------------------------
  // getAllLeads: SELECT * ... WHERE organization_id = $1 [AND ...] ORDER BY created_at DESC LIMIT 100
  // ---------------------------------------------------------------------------

  /** The `filters` argument; an absent filter is `Null`. */
  datatype LeadFilters = LeadFilters(status: Value, platform: Value, minScore: Value)

  /** One `AND` condition and its placeholder. */
  datatype Condition = StatusIs(placeholder: nat) | PlatformIs(placeholder: nat) | ScoreAtLeast(placeholder: nat)

  /** The query text's conditions and the parameter list, `$1` being the organization id. */
  datatype SelectStatement = SelectStatement(conditions: seq<Condition>, params: seq<Value>)

  /** The number of rows `LIMIT 100` lets through. */
  const SelectLimit: nat := 100

  /** The filter a condition comes from. */
  function FilterValue(filters: LeadFilters, c: Condition): Value
  {
    match c
    case StatusIs(_) => filters.status
    case PlatformIs(_) => filters.platform
    case ScoreAtLeast(_) => filters.minScore
  }

  predicate HasStatus(cs: seq<Condition>) { exists i :: 0 <= i < |cs| && cs[i].StatusIs? }
  predicate HasPlatform(cs: seq<Condition>) { exists i :: 0 <= i < |cs| && cs[i].PlatformIs? }
  predicate HasMinScore(cs: seq<Condition>) { exists i :: 0 <= i < |cs| && cs[i].ScoreAtLeast? }

  /** The statement getAllLeads sends: `$1` is the organization, every truthy filter adds one
      condition, and the condition numbered `$k` finds its filter's value at `params[k - 1]`. */
  ghost predicate SelectShape(organizationId: nat, filters: LeadFilters, stmt: SelectStatement)
  {
    && |stmt.params| == |stmt.conditions| + 1 && stmt.params[0] == Num(organizationId as real)
    && (forall i :: 0 <= i < |stmt.conditions| ==> stmt.conditions[i].placeholder == i + 2)
    && (HasStatus(stmt.conditions) <==> Truthy(filters.status))
    && (HasPlatform(stmt.conditions) <==> Truthy(filters.platform))
    && (HasMinScore(stmt.conditions) <==> Truthy(filters.minScore))
    && (forall i :: 0 <= i < |stmt.conditions| ==> stmt.params[i + 1] == FilterValue(filters, stmt.conditions[i]))
  }

  method BuildSelect(organizationId: nat, filters: LeadFilters) returns (stmt: SelectStatement)
    ensures SelectShape(organizationId, filters, stmt)
  {
    var conditions: seq<Condition> := [];
    var values: seq<Value> := [Num(organizationId as real)];
    var paramIndex: nat := 2;
    ghost var si, pi, mi := 0, 0, 0;
    if Truthy(filters.status) {
      si := |conditions|;
      conditions := conditions + [StatusIs(paramIndex)];
      values := values + [filters.status];
      paramIndex := paramIndex + 1;
    }
    if Truthy(filters.platform) {
      pi := |conditions|;
      conditions := conditions + [PlatformIs(paramIndex)];
      values := values + [filters.platform];
      paramIndex := paramIndex + 1;
    }
    if Truthy(filters.minScore) {
      mi := |conditions|;
      conditions := conditions + [ScoreAtLeast(paramIndex)];
      values := values + [filters.minScore];
      paramIndex := paramIndex + 1;
    }
    stmt := SelectStatement(conditions, values);
    assert Truthy(filters.status) ==> conditions[si].StatusIs?;
    assert Truthy(filters.platform) ==> conditions[pi].PlatformIs?;
    assert Truthy(filters.minScore) ==> conditions[mi].ScoreAtLeast?;
  }

  /** A bound condition. */
  datatype Test = StatusEq(s: string) | PlatformEq(s: string) | ScoreGe(n: int)

  /** A parameter compared with an `integer` column: a whole number, or a string PostgreSQL parses as one. */
  function BindInt(v: Value): (r: Option<int>)
    ensures IsIntegral(v) ==> r == Some(v.n.Floor)
    ensures !IsIntegral(v) && !v.Str? ==> r.None?
  {
    if IsIntegral(v) then Some(v.n.Floor)
    else if v.Str? then Strings.ParseSignedInt(v.s)
    else None
  }

  function BindCondition(c: Condition, params: seq<Value>): Result<Test, DbError>
  {
    if !(1 <= c.placeholder <= |params|) then Err(SyntaxError)
    else
      var v := params[c.placeholder - 1];
      match c
      case StatusIs(_) => if v.Str? then Ok(StatusEq(v.s)) else Err(InvalidValue("status"))
      case PlatformIs(_) => if v.Str? then Ok(PlatformEq(v.s)) else Err(InvalidValue("platform"))
      case ScoreAtLeast(_) =>
        match BindInt(v)
        case Some(n) => Ok(ScoreGe(n))
        case None => Err(InvalidValue("lead_score"))
  }

  /** Binding every condition: the first failure is the statement's error. */
  function BindConditions(cs: seq<Condition>, params: seq<Value>): (r: Result<seq<Test>, DbError>)
    ensures r.Ok? ==> |r.value| == |cs| && forall i :: 0 <= i < |cs| ==> BindCondition(cs[i], params) == Ok(r.value[i])
    ensures r.Err? ==> exists i :: 0 <= i < |cs| && BindCondition(cs[i], params).Err?
  {
    if cs == [] then Ok([])
    else
      assert forall i :: 1 <= i < |cs| ==> cs[i] == cs[1..][i - 1];
      match BindCondition(cs[0], params)
      case Err(e) => Err(e)
      case Ok(t) =>
        match BindConditions(cs[1..], params)
        case Err(e) => Err(e)
        case Ok(ts) => Ok([t] + ts)
  }

  predicate Passes(l: Lead, t: Test)
  {
    match t
    case StatusEq(s) => l.status == Some(s)
    case PlatformEq(s) => l.platform == s
    case ScoreGe(n) => l.leadScore >= n
  }

  predicate PassesAll(l: Lead, tests: seq<Test>)
  {
    forall i :: 0 <= i < |tests| ==> Passes(l, tests[i])
  }

  lemma NewestExists(leads: map<nat, Lead>, ids: set<nat>)
    requires ids != {} && ids <= leads.Keys
    ensures exists id :: id in ids && forall j :: j in ids ==> leads[j].createdAt <= leads[id].createdAt
    decreases |ids|
  {
    var x :| x in ids;
    if ids != {x} {
      NewestExists(leads, ids - {x});
      var y :| y in ids - {x} && forall j :: j in ids - {x} ==> leads[j].createdAt <= leads[y].createdAt;
      if leads[x].createdAt > leads[y].createdAt {
        assert forall j :: j in ids ==> leads[j].createdAt <= leads[x].createdAt;
      } else {
        assert forall j :: j in ids ==> leads[j].createdAt <= leads[y].createdAt;
      }
    } else {
      assert forall j :: j in ids ==> j == x;
    }
  }

  /** The id in `ids` created last; creation times are distinct, so it is unique. */
  function Newest(leads: map<nat, Lead>, ids: set<nat>): (id: nat)
    requires ids != {} && ids <= leads.Keys && DistinctCreation(leads)
    ensures id in ids && forall j :: j in ids && j != id ==> leads[j].createdAt < leads[id].createdAt
  {
    NewestExists(leads, ids);
    var id :| id in ids && forall j :: j in ids ==> leads[j].createdAt <= leads[id].createdAt;
    id
  }

  /** `ORDER BY created_at DESC LIMIT limit` over the rows `ids`: the `limit` newest, newest first. */
  function NewestIds(leads: map<nat, Lead>, ids: set<nat>, limit: nat): (r: seq<nat>)
    requires ids <= leads.Keys && DistinctCreation(leads)
    ensures |r| == Min(limit, |ids|)
    ensures forall i :: 0 <= i < |r| ==> r[i] in ids
    ensures forall i, j :: 0 <= i < j < |r| ==> leads[r[i]].createdAt > leads[r[j]].createdAt
    ensures forall id :: id in ids && id !in r ==> forall i :: 0 <= i < |r| ==> leads[id].createdAt < leads[r[i]].createdAt
    decreases limit
  {
    if limit == 0 || ids == {} then []
    else
      var x := Newest(leads, ids);
      var rest := NewestIds(leads, ids - {x}, limit - 1);
      assert |ids - {x}| == |ids| - 1;
      NewestCons(leads, ids, x, rest);
      [x] + rest
  }

  /** Putting the newest row in front of an ordered choice of the others keeps it ordered. */
  lemma NewestCons(leads: map<nat, Lead>, ids: set<nat>, x: nat, rest: seq<nat>)
    requires ids <= leads.Keys && x in ids
    requires forall j :: j in ids && j != x ==> leads[j].createdAt < leads[x].createdAt
    requires forall i :: 0 <= i < |rest| ==> rest[i] in ids - {x}
    requires forall i, j :: 0 <= i < j < |rest| ==> leads[rest[i]].createdAt > leads[rest[j]].createdAt
    requires forall id :: id in ids - {x} && id !in rest ==> forall i :: 0 <= i < |rest| ==> leads[id].createdAt < leads[rest[i]].createdAt
    ensures var r := [x] + rest;
      && (forall i :: 0 <= i < |r| ==> r[i] in ids)
      && (forall i, j :: 0 <= i < j < |r| ==> leads[r[i]].createdAt > leads[r[j]].createdAt)
      && (forall id :: id in ids && id !in r ==> forall i :: 0 <= i < |r| ==> leads[id].createdAt < leads[r[i]].createdAt)
  {
    var r := [x] + rest;
    forall i, j | 0 <= i < j < |r| ensures leads[r[i]].createdAt > leads[r[j]].createdAt {
      assert r[j] == rest[j - 1];
      if i > 0 {
        assert r[i] == rest[i - 1];
      }
    }
    forall id, i | id in ids && id !in r && 0 <= i < |r| ensures leads[id].createdAt < leads[r[i]].createdAt {
      assert id != x && id !in rest;
      if i > 0 {
        assert r[i] == rest[i - 1];
      }
    }
  }

  /** The organization's rows that pass every bound condition. */
  function Matching(leads: map<nat, Lead>, organizationId: int, tests: seq<Test>): (ids: set<nat>)
    ensures ids <= leads.Keys
    ensures forall id :: id in ids <==> id in leads && leads[id].organizationId == organizationId && PassesAll(leads[id], tests)
  {
    set id | id in leads && leads[id].organizationId == organizationId && PassesAll(leads[id], tests)
  }

  /** The rows behind a list of ids. */
  function RowsOf(leads: map<nat, Lead>, ids: seq<nat>): (rows: seq<Lead>)
    requires forall i :: 0 <= i < |ids| ==> ids[i] in leads
    ensures |rows| == |ids| && forall i :: 0 <= i < |ids| ==> rows[i] == leads[ids[i]]
  {
    seq(|ids|, i requires 0 <= i < |ids| => leads[ids[i]])
  }

  /** The query run against the table: the rows `result.rows` holds, or the error raised. */
  function ExecuteSelect(leads: map<nat, Lead>, stmt: SelectStatement): Result<seq<Lead>, DbError>
    requires DistinctCreation(leads)
  {
    if stmt.params == [] then Err(SyntaxError)
    else match BindInt(stmt.params[0])
    case None => Err(InvalidValue("organization_id"))
    case Some(org) =>
      match BindConditions(stmt.conditions, stmt.params)
      case Err(e) => Err(e)
      case Ok(tests) => Ok(RowsOf(leads, NewestIds(leads, Matching(leads, org, tests), SelectLimit)))
  }

  /** A lead passes the filters getAllLeads was given: each truthy filter is a condition on it. */
  predicate MatchesFilters(l: Lead, filters: LeadFilters)
  {
    && (Truthy(filters.status) ==> filters.status.Str? && l.status == Some(filters.status.s))
    && (Truthy(filters.platform) ==> filters.platform.Str? && l.platform == filters.platform.s)
    && (Truthy(filters.minScore) ==> BindInt(filters.minScore).Some? && l.leadScore >= BindInt(filters.minScore).value)
  }

  /** A truthy filter PostgreSQL cannot compare with its column. */
  predicate BadFilter(filters: LeadFilters)
  {
    || (Truthy(filters.status) && !filters.status.Str?)
    || (Truthy(filters.platform) && !filters.platform.Str?)
    || (Truthy(filters.minScore) && BindInt(filters.minScore).None?)
  }

  /** The leads of the organization that pass the filters. */
  ghost function Selected(leads: map<nat, Lead>, organizationId: nat, filters: LeadFilters): (ids: set<nat>)
    ensures ids <= leads.Keys
  {
    set id | id in leads && leads[id].organizationId == organizationId && MatchesFilters(leads[id], filters)
  }

  /** Rows of the answer to getAllLeads over `ids`: stored rows, `limit` of them at most,
      newest first, and every row of `ids` left out is older than every row returned. */
  ghost predicate NewestRows(leads: map<nat, Lead>, ids: set<nat>, limit: nat, rows: seq<Lead>)
  {
    && ids <= leads.Keys
    && |rows| == Min(limit, |ids|)
    && (forall i :: 0 <= i < |rows| ==> rows[i].id in ids && leads[rows[i].id] == rows[i])
    && (forall i, j :: 0 <= i < j < |rows| ==> rows[i].createdAt > rows[j].createdAt)
    && (forall id :: id in ids && leads[id] !in rows ==> forall i :: 0 <= i < |rows| ==> leads[id].createdAt < rows[i].createdAt)
  }

  method GetAllLeads(db: Database, organizationId: nat, filters: LeadFilters) returns (r: Result<seq<Lead>, DbError>)
    requires db.Valid()
    ensures r.Err? <==> BadFilter(filters)
    ensures r.Ok? ==> NewestRows(db.leads, Selected(db.leads, organizationId, filters), SelectLimit, r.value)
  {
    var stmt := BuildSelect(organizationId, filters);
    SelectFails(db.leads, db.nextLeadId, db.clock, organizationId, filters, stmt);
    if !BadFilter(filters) {
      SelectAnswers(db.leads, db.nextLeadId, db.clock, organizationId, filters, stmt);
    }
    r := ExecuteSelect(db.leads, stmt);
  }

  /** A bad filter fails to bind. */
  lemma BindFails(organizationId: nat, filters: LeadFilters, stmt: SelectStatement)
    requires SelectShape(organizationId, filters, stmt) && BadFilter(filters)
    ensures BindConditions(stmt.conditions, stmt.params).Err?
  {
    var cs := stmt.conditions;
    var i: nat;
    if Truthy(filters.status) && !filters.status.Str? {
      i :| i < |cs| && cs[i].StatusIs?;
    } else if Truthy(filters.platform) && !filters.platform.Str? {
      i :| i < |cs| && cs[i].PlatformIs?;
    } else {
      i :| i < |cs| && cs[i].ScoreAtLeast?;
    }
    assert stmt.params[cs[i].placeholder - 1] == FilterValue(filters, cs[i]);
    assert BindCondition(cs[i], stmt.params).Err?;
  }

  /** Good filters bind, to tests that hold of exactly the leads matching the filters. */
  lemma BindSucceeds(organizationId: nat, filters: LeadFilters, stmt: SelectStatement) returns (tests: seq<Test>)
    requires SelectShape(organizationId, filters, stmt) && !BadFilter(filters)
    ensures BindConditions(stmt.conditions, stmt.params) == Ok(tests)
    ensures forall l :: PassesAll(l, tests) <==> MatchesFilters(l, filters)
  {
    var cs := stmt.conditions;
    var bound := BindConditions(cs, stmt.params);
    forall i | 0 <= i < |cs| ensures BindCondition(cs[i], stmt.params).Ok? {
      assert stmt.params[cs[i].placeholder - 1] == FilterValue(filters, cs[i]);
      match cs[i]
      case StatusIs(_) => assert HasStatus(cs);
      case PlatformIs(_) => assert HasPlatform(cs);
      case ScoreAtLeast(_) => assert HasMinScore(cs);
    }
    tests := bound.value;
    forall l: Lead ensures PassesAll(l, tests) <==> MatchesFilters(l, filters) {
      TestsMeaning(l, filters, stmt, tests);
    }
  }

  /** The bound conditions test exactly the filters. */
  lemma TestsMeaning(l: Lead, filters: LeadFilters, stmt: SelectStatement, tests: seq<Test>)
    requires |stmt.params| == |stmt.conditions| + 1
    requires forall i :: 0 <= i < |stmt.conditions| ==> stmt.conditions[i].placeholder == i + 2
    requires HasStatus(stmt.conditions) <==> Truthy(filters.status)
    requires HasPlatform(stmt.conditions) <==> Truthy(filters.platform)
    requires HasMinScore(stmt.conditions) <==> Truthy(filters.minScore)
    requires forall i :: 0 <= i < |stmt.conditions| ==> stmt.params[i + 1] == FilterValue(filters, stmt.conditions[i])
    requires BindConditions(stmt.conditions, stmt.params) == Ok(tests)
    ensures PassesAll(l, tests) <==> MatchesFilters(l, filters)
  {
    var cs := stmt.conditions;
    if PassesAll(l, tests) {
      if Truthy(filters.status) {
        var i :| 0 <= i < |cs| && cs[i].StatusIs?;
        assert BindCondition(cs[i], stmt.params) == Ok(tests[i]);
        assert Passes(l, tests[i]);
      }
      if Truthy(filters.platform) {
        var i :| 0 <= i < |cs| && cs[i].PlatformIs?;
        assert BindCondition(cs[i], stmt.params) == Ok(tests[i]);
        assert Passes(l, tests[i]);
      }
      if Truthy(filters.minScore) {
        var i :| 0 <= i < |cs| && cs[i].ScoreAtLeast?;
        assert BindCondition(cs[i], stmt.params) == Ok(tests[i]);
        assert Passes(l, tests[i]);
      }
    }
    if MatchesFilters(l, filters) {
      forall i | 0 <= i < |tests| ensures Passes(l, tests[i]) {
        assert BindCondition(cs[i], stmt.params) == Ok(tests[i]);
        match cs[i]
        case StatusIs(_) => assert HasStatus(cs);
        case PlatformIs(_) => assert HasPlatform(cs);
        case ScoreAtLeast(_) => assert HasMinScore(cs);
      }
    }
  }

  /** The statement getAllLeads builds fails exactly on a bad filter. */
  lemma SelectFails(leads: map<nat, Lead>, nextId: nat, clock: nat, organizationId: nat, filters: LeadFilters, stmt: SelectStatement)
    requires LeadTable(leads, nextId, clock) && SelectShape(organizationId, filters, stmt)
    ensures ExecuteSelect(leads, stmt).Err? <==> BadFilter(filters)
  {
    assert (organizationId as real).Floor == organizationId;
    assert BindInt(stmt.params[0]) == Some(organizationId as int);
    if BadFilter(filters) {
      BindFails(organizationId, filters, stmt);
    } else {
      var tests := BindSucceeds(organizationId, filters, stmt);
    }
  }

  /** On good filters the statement returns the newest matching leads of the organization. */
  lemma SelectAnswers(leads: map<nat, Lead>, nextId: nat, clock: nat, organizationId: nat, filters: LeadFilters, stmt: SelectStatement)
    requires LeadTable(leads, nextId, clock) && SelectShape(organizationId, filters, stmt) && !BadFilter(filters)
    ensures ExecuteSelect(leads, stmt).Ok?
    ensures NewestRows(leads, Selected(leads, organizationId, filters), SelectLimit, ExecuteSelect(leads, stmt).value)
  {
    assert (organizationId as real).Floor == organizationId;
    assert BindInt(stmt.params[0]) == Some(organizationId as int);
    var tests := BindSucceeds(organizationId, filters, stmt);
    var ids := Matching(leads, organizationId, tests);
    assert ids == Selected(leads, organizationId, filters);
    NewestRowsOf(leads, nextId, clock, ids, SelectLimit);
  }

  /** The rows of `NewestIds` meet `NewestRows`. */
  lemma NewestRowsOf(leads: map<nat, Lead>, nextId: nat, clock: nat, ids: set<nat>, limit: nat)
    requires LeadTable(leads, nextId, clock) && ids <= leads.Keys
    ensures NewestRows(leads, ids, limit, RowsOf(leads, NewestIds(leads, ids, limit)))
  {
    var top := NewestIds(leads, ids, limit);
    var rows := RowsOf(leads, top);
    forall id | id in ids && leads[id] !in rows
      ensures forall i :: 0 <= i < |rows| ==> leads[id].createdAt < rows[i].createdAt
    {
      forall k | 0 <= k < |top| ensures top[k] != id {
        assert rows[k] == leads[top[k]];
      }
      assert id !in top;
    }
  }
}
