/** `ConversationStore`: the Node.js in-memory fallback store, two `Map`s from user id to a
    message list and to a lead object. `Map` iteration follows first insertion, which
    `leadOrder` records. Each `new Date()` is the `now` parameter of the call. */
module ConversationStore {
  import opened JsValues

  /** One pushed entry `{ role, content, timestamp }`. */
  datatype StoredMessage = StoredMessage(role: string, content: string, timestamp: nat)

  /** The object `getLead` hands out for a user with no stored lead. */
  function DefaultLead(userId: string, now: nat): (r: map<string, Value>)
    ensures r.Keys == {"user_id", "entities", "intent", "sentiment", "lead_score", "created_at"}
    ensures r["user_id"] == Str(userId) && r["entities"] == Obj(map[]) && r["lead_score"] == Num(0.0)
    ensures r["intent"] == Null && r["sentiment"] == Null && r["created_at"] == Date(now)
  {
    map["user_id" := Str(userId), "entities" := Obj(map[]), "intent" := Null,
        "sentiment" := Null, "lead_score" := Num(0.0), "created_at" := Date(now)]
  }

  /** `{...lead, ...updates, updated_at: new Date()}`: a shallow overlay, so an `entities`
      key in `updates` replaces the stored object wholesale. */
  function Overlay(lead: map<string, Value>, updates: map<string, Value>, now: nat): (r: map<string, Value>)
    ensures r.Keys == lead.Keys + updates.Keys + {"updated_at"}
    ensures r["updated_at"] == Date(now)
    ensures forall k :: k in updates && k != "updated_at" ==> r[k] == updates[k]
    ensures forall k :: k in lead && k !in updates && k != "updated_at" ==> r[k] == lead[k]
  {
    Spread(Spread(lead, updates), map["updated_at" := Date(now)])
  }

  class Store {
    var conversations: map<string, seq<StoredMessage>>
    var leads: map<string, map<string, Value>>
    /** The keys of `leads` in first-insertion order. */
    var leadOrder: seq<string>

    ghost predicate Valid()
      reads this
    {
      && (forall i, j :: 0 <= i < j < |leadOrder| ==> leadOrder[i] != leadOrder[j])
      && (forall u :: u in leads <==> u in leadOrder)
    }

    constructor ()
      ensures Valid()
      ensures conversations == map[] && leads == map[] && leadOrder == []
    {
      conversations, leads, leadOrder := map[], map[], [];
    }

    /** `getConversation`: the stored list, or a fresh `[]` that is not stored. */
    function GetConversation(userId: string): (r: seq<StoredMessage>)
      reads this
      ensures userId in conversations ==> r == conversations[userId]
      ensures userId !in conversations ==> r == []
    {
      if userId in conversations then conversations[userId] else []
    }

    /** `addMessage`: one entry pushed at the end of that user's list; nothing else changes. */
    method AddMessage(userId: string, role: string, content: string, now: nat)
      requires Valid()
      modifies this
      ensures Valid()
      ensures conversations == old(conversations)[userId := old(GetConversation(userId)) + [StoredMessage(role, content, now)]]
      ensures leads == old(leads) && leadOrder == old(leadOrder)
    {
      var conversation := GetConversation(userId);
      conversation := conversation + [StoredMessage(role, content, now)];
      conversations := conversations[userId := conversation];
    }

    /** `getLead`: the stored lead, or the default lead, which is not stored. */
    function GetLead(userId: string, now: nat): (r: map<string, Value>)
      reads this
      ensures userId in leads ==> r == leads[userId]
      ensures userId !in leads ==> r == DefaultLead(userId, now)
    {
      if userId in leads then leads[userId] else DefaultLead(userId, now)
    }

    /** `updateLead`: overlays `updates` on the current lead, stores the result under the
        user (a new user goes last in iteration order) and returns that same object. */
    method UpdateLead(userId: string, updates: map<string, Value>, now: nat) returns (updated: map<string, Value>)
      requires Valid()
      modifies this
      ensures Valid()
      ensures updated == Overlay(old(GetLead(userId, now)), updates, now)
      ensures leads == old(leads)[userId := updated]
      ensures leadOrder == if userId in old(leads) then old(leadOrder) else old(leadOrder) + [userId]
      ensures conversations == old(conversations)
      ensures GetLead(userId, now) == updated
    {
      var lead := GetLead(userId, now);
      updated := Overlay(lead, updates, now);
      if userId !in leads {
        leadOrder := leadOrder + [userId];
      }
      leads := leads[userId := updated];
    }

    /** `clearConversation`: forgets that user's list; leads are untouched. */
    method ClearConversation(userId: string)
      requires Valid()
      modifies this
      ensures Valid()
      ensures conversations == old(conversations) - {userId}
      ensures GetConversation(userId) == []
      ensures leads == old(leads) && leadOrder == old(leadOrder)
    {
      conversations := conversations - {userId};
    }

    /** `getAllLeads`: every stored lead, once each, in first-insertion order of its user. */
    function GetAllLeads(): (r: seq<map<string, Value>>)
      requires Valid()
      reads this
      ensures |r| == |leadOrder|
      ensures forall i :: 0 <= i < |r| ==> leadOrder[i] in leads && r[i] == leads[leadOrder[i]]
      ensures forall u :: u in leads ==> leads[u] in r
    {
      var r := seq(|leadOrder|, i requires 0 <= i < |leadOrder| && leadOrder[i] in leads reads this => leads[leadOrder[i]]);
      assert forall u :: u in leads ==> leads[u] in r by {
        forall u | u in leads ensures leads[u] in r {
          var i :| 0 <= i < |leadOrder| && leadOrder[i] == u;
          assert r[i] == leads[u];
        }
      }
      r
    }
  }

  /** Updating a lead whose overlay leaves `entities` alone keeps the stored entities;
      an `entities` key in the updates replaces them outright. */
  lemma OverlayEntities(lead: map<string, Value>, updates: map<string, Value>, now: nat)
    requires "entities" in lead
    ensures "entities" !in updates ==> Overlay(lead, updates, now)["entities"] == lead["entities"]
    ensures "entities" in updates ==> Overlay(lead, updates, now)["entities"] == updates["entities"]
  {
  }

  /** An example on a fresh store: `getLead` of a new user lists nothing, and one
      `updateLead` lists exactly the lead it returned. */
  method OneUpdateListsOneLead(userId: string, updates: map<string, Value>, now: nat) returns (all: seq<map<string, Value>>, lead: map<string, Value>)
    ensures |all| == 1 && all[0] == lead
    ensures lead == Overlay(DefaultLead(userId, now), updates, now)
  {
    var store := new Store();
    var before := store.GetLead(userId, now);
    assert before == DefaultLead(userId, now) && store.GetAllLeads() == [];
    lead := store.UpdateLead(userId, updates, now);
    all := store.GetAllLeads();
  }
}
