/** Selections over the `organizations` table: by API key among active organizations,
    by id regardless of status, and the default (earliest-created active) organization.
    The table is a sequence in scan order; `rows[0]` of several matches is the first. */
module OrganizationRepository {
  import opened Wrappers

  /** One row of `organizations`; the columns the selections read. */
  datatype Organization = Organization(id: nat, name: string, apiKey: Option<string>, isActive: bool, createdAt: nat)

  /** `WHERE api_key = $1 AND is_active = true`; a NULL key matches nothing. */
  predicate KeyMatches(o: Organization, apiKey: string)
  {
    o.apiKey == Some(apiKey) && o.isActive
  }

  /** First row of the selection: the first matching row in scan order, or `undefined`. */
  function GetByApiKey(orgs: seq<Organization>, apiKey: string): (r: Option<Organization>)
    ensures r.Some? ==> r.value in orgs && KeyMatches(r.value, apiKey)
    ensures r.None? <==> forall i :: 0 <= i < |orgs| ==> !KeyMatches(orgs[i], apiKey)
  {
    if orgs == [] then None
    else if KeyMatches(orgs[0], apiKey) then Some(orgs[0])
    else GetByApiKey(orgs[1..], apiKey)
  }

  /** `WHERE id = $1`, whatever `is_active` holds. */
  function GetById(orgs: seq<Organization>, organizationId: nat): (r: Option<Organization>)
    ensures r.Some? ==> r.value in orgs && r.value.id == organizationId
    ensures r.None? <==> forall i :: 0 <= i < |orgs| ==> orgs[i].id != organizationId
  {
    if orgs == [] then None
    else if orgs[0].id == organizationId then Some(orgs[0])
    else GetById(orgs[1..], organizationId)
  }

  /** `WHERE is_active = true ORDER BY created_at ASC LIMIT 1`: the active organization
      created first (the first in scan order among equally old ones), or `undefined`. */
  function GetDefaultOrganization(orgs: seq<Organization>): (r: Option<Organization>)
    ensures r.Some? ==> r.value in orgs && r.value.isActive
    ensures r.Some? ==> forall i :: 0 <= i < |orgs| && orgs[i].isActive ==> r.value.createdAt <= orgs[i].createdAt
    ensures r.None? <==> forall i :: 0 <= i < |orgs| ==> !orgs[i].isActive
  {
    if orgs == [] then None
    else
      var rest := GetDefaultOrganization(orgs[1..]);
      assert forall i :: 1 <= i < |orgs| ==> orgs[i] == orgs[1..][i - 1];
      if !orgs[0].isActive then rest
      else if rest.Some? && rest.value.createdAt < orgs[0].createdAt then rest
      else Some(orgs[0])
  }

  /** Ids are the primary key. */
  predicate UniqueIds(orgs: seq<Organization>)
  {
    forall i, j :: 0 <= i < j < |orgs| ==> orgs[i].id != orgs[j].id
  }

  /** Deactivating an organization hides it from `getByApiKey` and `getDefaultOrganization`
      but not from `getById`. */
  lemma DeactivatedStillById(orgs: seq<Organization>, k: nat)
    requires UniqueIds(orgs) && k < |orgs|
    ensures var off := orgs[k := orgs[k].(isActive := false)];
      && GetById(off, orgs[k].id) == Some(off[k])
      && (forall key :: GetByApiKey(off, key) != Some(off[k]))
      && GetDefaultOrganization(off) != Some(off[k])
  {
    var off := orgs[k := orgs[k].(isActive := false)];
    GetByIdFinds(off, k);
  }

  /** Under the primary key the row with a given id is the one `getById` returns. */
  lemma {:induction false} GetByIdFinds(orgs: seq<Organization>, k: nat)
    requires UniqueIds(orgs) && k < |orgs|
    ensures GetById(orgs, orgs[k].id) == Some(orgs[k])
  {
    if k > 0 {
      assert UniqueIds(orgs[1..]) by {
        forall i, j | 0 <= i < j < |orgs[1..]| ensures orgs[1..][i].id != orgs[1..][j].id {
          assert orgs[1..][i] == orgs[i + 1] && orgs[1..][j] == orgs[j + 1];
        }
      }
      assert orgs[0].id != orgs[k].id;
      GetByIdFinds(orgs[1..], k - 1);
    }
  }

  /** An organization found by its API key is found again by its id. */
  lemma ApiKeyThenId(orgs: seq<Organization>, apiKey: string)
    requires UniqueIds(orgs) && GetByApiKey(orgs, apiKey).Some?
    ensures GetById(orgs, GetByApiKey(orgs, apiKey).value.id) == GetByApiKey(orgs, apiKey)
  {
    var o := GetByApiKey(orgs, apiKey).value;
    var k :| 0 <= k < |orgs| && orgs[k] == o;
    GetByIdFinds(orgs, k);
  }
}
