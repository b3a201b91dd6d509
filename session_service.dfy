/** `SessionService.linkByEmail`: when a visitor gives an email that another lead of
    the organization already carries, that older lead is folded into the visitor's
    web lead inside one transaction: its turns move over, entities are united, the
    higher score and the summed message count are kept, and the older row is deleted. */
module SessionService {
  import opened Wrappers
  import opened JsValues
  import opened Db
  import LeadRepository
  import ConversationRepository

  /** `WHERE organization_id = $1 AND email = $2 AND platform_user_id != $3`; a NULL email never matches. */
  predicate IsSource(l: Lead, organizationId: nat, currentUserId: string, email: string)
  {
    l.organizationId == organizationId && l.email == Some(email) && l.platformUserId != currentUserId
  }

  /** Whether the SELECT at the start of the transaction finds a row. */
  ghost predicate HasSource(leads: map<nat, Lead>, organizationId: nat, currentUserId: string, email: string)
  {
    exists id :: id in leads && IsSource(leads[id], organizationId, currentUserId, email)
  }

  /** The visitor's own lead, on platform 'web'. */
  function WebKey(organizationId: nat, currentUserId: string): DedupKey
  {
    DedupKey(organizationId, "web", currentUserId)
  }

  /** The statements of the transaction, any of which may fail from outside
      (lost connection, serialization failure). */
  datatype Step = Begin | FindSource | FindCurrent | Reassign | UpdateTarget | DeleteSource | Commit

  /** The statements that run, given whether a source and a current lead are found. */
  function StepsRun(hasSource: bool, hasCurrent: bool): (steps: set<Step>)
    ensures Begin in steps && FindSource in steps && Commit in steps
    ensures FindCurrent in steps <==> hasSource
    ensures Reassign in steps <==> hasSource && hasCurrent
    ensures UpdateTarget in steps <==> hasSource && hasCurrent
    ensures DeleteSource in steps <==> hasSource && hasCurrent
  {
    {Begin, FindSource, Commit}
    + (if hasSource then {FindCurrent} else {})
    + (if hasSource && hasCurrent then {Reassign, UpdateTarget, DeleteSource} else {})
  }

  /** `UPDATE conversations SET lead_id = $1 WHERE lead_id = $2`. */
  function Reassigned(turns: seq<Turn>, from: nat, to: nat): (r: seq<Turn>)
    ensures |r| == |turns|
    ensures forall i :: 0 <= i < |turns| ==> r[i] == if turns[i].leadId == from then turns[i].(leadId := to) else turns[i]
  {
    if turns == [] then []
    else [if turns[0].leadId == from then turns[0].(leadId := to) else turns[0]] + Reassigned(turns[1..], from, to)
  }

  /** After the reassignment the source owns no turn, the target owns its own and the
      source's, and every other lead keeps its count: no turn is lost. */
  lemma {:induction false} ReassignCounts(turns: seq<Turn>, from: nat, to: nat, x: nat)
    requires from != to
    ensures ConversationRepository.CountOf(Reassigned(turns, from, to), x) ==
      if x == from then 0
      else if x == to then ConversationRepository.CountOf(turns, from) + ConversationRepository.CountOf(turns, to)
      else ConversationRepository.CountOf(turns, x)
  {
    if turns != [] {
      ReassignCounts(turns[1..], from, to, x);
      var r := Reassigned(turns, from, to);
      assert r[1..] == Reassigned(turns[1..], from, to);
    }
  }

  /** The target row after `entities = $1, lead_score = GREATEST(lead_score, $2),
      message_count = message_count + $3`. */
  function MergedLead(target: Lead, source: Lead): Lead
  {
    target.(entities := Spread(source.entities, target.entities),
            leadScore := if target.leadScore >= source.leadScore then target.leadScore else source.leadScore,
            messageCount := target.messageCount + source.messageCount)
  }

  /** The merged row: the target's entities overlay the source's, the score is the
      larger, the counts add up, and no other column changes. */
  lemma MergedLeadMeaning(target: Lead, source: Lead)
    ensures var m := MergedLead(target, source);
      && m.entities.Keys == source.entities.Keys + target.entities.Keys
      && (forall k :: k in target.entities ==> m.entities[k] == target.entities[k])
      && (forall k :: k in source.entities && k !in target.entities ==> m.entities[k] == source.entities[k])
      && m.leadScore >= target.leadScore && m.leadScore >= source.leadScore
      && (m.leadScore == target.leadScore || m.leadScore == source.leadScore)
      && m.messageCount == target.messageCount + source.messageCount
      && m.(entities := target.entities, leadScore := target.leadScore, messageCount := target.messageCount) == target
  {
  }

  /** The lead table after the update of the target and the delete of the source. */
  function MergedLeads(leads: map<nat, Lead>, sourceId: nat, targetId: nat): map<nat, Lead>
    requires sourceId in leads && targetId in leads
  {
    (leads[targetId := MergedLead(leads[targetId], leads[sourceId])]) - {sourceId}
  }

  /** The source the SELECT returns is never the visitor's web lead. */
  lemma SourceIsNotTarget(leads: map<nat, Lead>, organizationId: nat, currentUserId: string, email: string,
                          sourceId: nat, targetId: nat)
    requires sourceId in leads && IsSource(leads[sourceId], organizationId, currentUserId, email)
    requires IdForKey(leads, WebKey(organizationId, currentUserId)) == Some(targetId)
    ensures sourceId != targetId
  {
  }

  /** A completed merge keeps the lead table's constraints: the target keeps its key and creation time. */
  lemma MergeKeepsLeadTable(leads: map<nat, Lead>, nextId: nat, clock: nat, sourceId: nat, targetId: nat)
    requires LeadTable(leads, nextId, clock)
    requires sourceId in leads && targetId in leads
    ensures LeadTable(MergedLeads(leads, sourceId, targetId), nextId, clock)
  {
    var m := MergedLeads(leads, sourceId, targetId);
    assert forall id :: id in m ==>
      id in leads && KeyOf(m[id]) == KeyOf(leads[id]) && m[id].createdAt == leads[id].createdAt && m[id].id == leads[id].id;
  }

  /** Every turn of the deleted row now points at the target, and timestamps do not move. */
  lemma MergeKeepsTurnTable(leads: map<nat, Lead>, turns: seq<Turn>, clock: nat, sourceId: nat, targetId: nat)
    requires TurnTable(turns, leads, clock)
    requires sourceId in leads && targetId in leads && sourceId != targetId
    ensures TurnTable(Reassigned(turns, sourceId, targetId), MergedLeads(leads, sourceId, targetId), clock)
  {
    var m := MergedLeads(leads, sourceId, targetId);
    var r := Reassigned(turns, sourceId, targetId);
    forall i | 0 <= i < |r| ensures r[i].timestamp == turns[i].timestamp && r[i].leadId in m {
    }
    forall i, j | 0 <= i < j < |r| ensures r[i].timestamp < r[j].timestamp {
      assert r[i].timestamp == turns[i].timestamp && r[j].timestamp == turns[j].timestamp;
    }
  }

  /** The three statements of a merge, in order; the first that `fault` names stops it. */
  method Merge(db: Database, sourceId: nat, targetId: nat, fault: Option<Step>) returns (failed: bool)
    requires db.Valid() && sourceId in db.leads && targetId in db.leads && sourceId != targetId
    modifies db`leads, db`conversations
    ensures failed <==> fault == Some(Reassign) || fault == Some(UpdateTarget) || fault == Some(DeleteSource)
    ensures !failed ==>
      && db.leads == MergedLeads(old(db.leads), sourceId, targetId)
      && db.conversations == Reassigned(old(db.conversations), sourceId, targetId)
      && db.Valid()
  {
    MergeKeepsLeadTable(db.leads, db.nextLeadId, db.clock, sourceId, targetId);
    MergeKeepsTurnTable(db.leads, db.conversations, db.clock, sourceId, targetId);
    failed := fault == Some(Reassign);
    if !failed {
      db.conversations := Reassigned(db.conversations, sourceId, targetId);
      failed := fault == Some(UpdateTarget);
    }
    if !failed {
      db.leads := db.leads[targetId := MergedLead(db.leads[targetId], db.leads[sourceId])];
      failed := fault == Some(DeleteSource);
    }
    if !failed {
      db.leads := db.leads - {sourceId};
    }
  }

  /** Once a source row is found: the lookup of the visitor's web lead, then, if it
      exists, the merge of the source into it. */
  method MergeSource(db: Database, organizationId: nat, currentUserId: string, email: string,
                     sourceId: nat, fault: Option<Step>) returns (failed: bool)
    requires db.Valid() && sourceId in db.leads && IsSource(db.leads[sourceId], organizationId, currentUserId, email)
    modifies db`leads, db`conversations
    ensures var target := IdForKey(old(db.leads), WebKey(organizationId, currentUserId));
      failed <==> fault == Some(FindCurrent)
                  || (target.Some? && (fault == Some(Reassign) || fault == Some(UpdateTarget) || fault == Some(DeleteSource)))
    ensures !failed ==> db.Valid()
    ensures !failed && IdForKey(old(db.leads), WebKey(organizationId, currentUserId)).None? ==>
      db.leads == old(db.leads) && db.conversations == old(db.conversations)
    ensures var target := IdForKey(old(db.leads), WebKey(organizationId, currentUserId));
      !failed && target.Some? ==>
        && sourceId != target.value
        && db.leads == MergedLeads(old(db.leads), sourceId, target.value)
        && db.conversations == Reassigned(old(db.conversations), sourceId, target.value)
  {
    failed := fault == Some(FindCurrent);
    if !failed {
      var current := LeadRepository.GetLeadByPlatformUser(db, organizationId, "web", currentUserId);
      if current.Some? {
        var targetId := current.value.id;
        SourceIsNotTarget(db.leads, organizationId, currentUserId, email, sourceId, targetId);
        failed := Merge(db, sourceId, targetId, fault);
      }
    }
  }

  /** `linkByEmail(organizationId, currentUserId, email)`; `fault` names the statement
      that fails, if any. On any failure the transaction rolls back and the error is
      rethrown; otherwise the call returns true. */
  method LinkByEmail(db: Database, organizationId: nat, currentUserId: string, email: string, fault: Option<Step>)
    returns (r: Result<bool, DbError>, ghost source: Option<nat>)
    requires db.Valid()
    modifies db
    ensures db.Valid()
    ensures db.clock == old(db.clock) && db.nextLeadId == old(db.nextLeadId)
    ensures var target := IdForKey(old(db.leads), WebKey(organizationId, currentUserId));
      r.Err? <==> fault.Some? && fault.value in StepsRun(HasSource(old(db.leads), organizationId, currentUserId, email), target.Some?)
    ensures r.Err? ==> r.error == StatementFailed && db.leads == old(db.leads) && db.conversations == old(db.conversations)
    ensures r.Ok? ==> r.value
    ensures r.Ok? && !(HasSource(old(db.leads), organizationId, currentUserId, email)
                       && IdForKey(old(db.leads), WebKey(organizationId, currentUserId)).Some?) ==>
      db.leads == old(db.leads) && db.conversations == old(db.conversations)
    ensures var target := IdForKey(old(db.leads), WebKey(organizationId, currentUserId));
      r.Ok? && HasSource(old(db.leads), organizationId, currentUserId, email) && target.Some? ==>
        && source.Some? && source.value in old(db.leads)
        && IsSource(old(db.leads)[source.value], organizationId, currentUserId, email)
        && source.value != target.value
        && db.leads == MergedLeads(old(db.leads), source.value, target.value)
        && db.conversations == Reassigned(old(db.conversations), source.value, target.value)
  {
    ghost var target := IdForKey(db.leads, WebKey(organizationId, currentUserId));
    ghost var found := HasSource(db.leads, organizationId, currentUserId, email);
    var savedLeads, savedTurns := db.leads, db.conversations;
    source := None;
    var failed := fault == Some(Begin) || fault == Some(FindSource);
    if !failed && exists id :: id in db.leads && IsSource(db.leads[id], organizationId, currentUserId, email) {
      var sourceId :| sourceId in db.leads && IsSource(db.leads[sourceId], organizationId, currentUserId, email);
      source := Some(sourceId);
      failed := MergeSource(db, organizationId, currentUserId, email, sourceId, fault);
    }
    failed := failed || fault == Some(Commit);
    if failed {
      db.leads, db.conversations := savedLeads, savedTurns;
      r := Err(StatementFailed);
    } else {
      r := Ok(true);
    }
  }
}
