/** app/api/orgs/route.ts: `GET` lists the caller's organizations with
    their role in each, `POST` creates an organization and makes the
    caller its owner. */
module OrgsRoute {
  import opened Wrappers
  import opened Types
  import opened Json
  import opened Http
  import opened Store
  import Seqs

  /** How the memberships query ends: an error, `data: null` without an
      error, or the rows. */
  datatype QueryOutcome = QueryFailed(message: string) | QueryNull | QueryRows

  /** `.eq('user_id', userId)` on `organization_members`. */
  function MembershipsOf(members: seq<Membership>, userId: UserId): (r: seq<Membership>)
    ensures forall m :: m in r <==> m in members && m.user_id == userId
  {
    Seqs.Filter(members, (m: Membership) => m.user_id == userId)
  }

  /** The embedded `organization:organizations(id, name, created_at)`: the
      organization the row's `org_id` refers to, or `null`. */
  function OrganizationById(orgs: seq<Organization>, id: string): (r: Option<Organization>)
    ensures r.Some? ==> r.value in orgs && r.value.id == id
    ensures r.None? ==> !HasOrganization(orgs, id)
  {
    if orgs == [] then None
    else if orgs[0].id == id then Some(orgs[0])
    else
      var rest := OrganizationById(orgs[1..], id);
      assert forall o :: o in orgs ==> o == orgs[0] || o in orgs[1..];
      rest
  }

  /** `memberships.map(m => ({ ...m.organization, role: m.role }))`. */
  function WithRoles(orgs: seq<Organization>, rows: seq<Membership>): (r: seq<OrgWithRole>)
    ensures |r| == |rows|
    ensures forall i :: 0 <= i < |rows| ==>
      r[i] == OrgWithRole(OrganizationById(orgs, rows[i].org_id), rows[i].role)
  {
    if rows == [] then []
    else [OrgWithRole(OrganizationById(orgs, rows[0].org_id), rows[0].role)] + WithRoles(orgs, rows[1..])
  }

  /** `GET /api/orgs`. */
  function ListOrganizations(session: Option<UserId>, members: seq<Membership>, orgs: seq<Organization>,
                             outcome: QueryOutcome): (r: Response)
    ensures session.None? ==> r == Failure(Unauthorized, UnauthorizedMessage)
    ensures session.Some? && outcome.QueryFailed? ==> r == Failure(InternalServerError, outcome.message)
    ensures session.Some? && outcome.QueryNull? ==> r == Response(OkStatus, OrganizationList([]))
    ensures session.Some? && outcome.QueryRows? ==>
      && r.status == OkStatus && r.payload.OrganizationList?
      && |r.payload.organizations| == |MembershipsOf(members, session.value)|
      && forall i :: 0 <= i < |r.payload.organizations| ==>
           var m := MembershipsOf(members, session.value)[i];
           r.payload.organizations[i] == OrgWithRole(OrganizationById(orgs, m.org_id), m.role)
  {
    if session.None? then Failure(Unauthorized, UnauthorizedMessage)
    else
      match outcome
      case QueryFailed(message) => Failure(InternalServerError, message)
      case QueryNull => Response(OkStatus, OrganizationList([]))
      case QueryRows => Response(OkStatus, OrganizationList(WithRoles(orgs, MembershipsOf(members, session.value))))
  }

  /** With the store's constraints kept, every listed entry carries its organization. */
  lemma ListedOrganizationsResolve(user: UserId, members: seq<Membership>, orgs: seq<Organization>,
                                   agents: seq<Agent>)
    requires Integrity(orgs, members, agents)
    ensures forall e :: e in ListOrganizations(Some(user), members, orgs, QueryRows).payload.organizations ==>
      e.organization.Some?
  {
    var rows := MembershipsOf(members, user);
    var listed := ListOrganizations(Some(user), members, orgs, QueryRows).payload.organizations;
    forall e | e in listed ensures e.organization.Some? {
      var i :| 0 <= i < |listed| && listed[i] == e;
      assert rows[i] in rows;
    }
  }

  /** With the store's constraints kept, an (organization, role) pair is
      listed exactly when the caller holds that role in that organization. */
  lemma ListsExactlyTheCallersOrganizations(user: UserId, members: seq<Membership>, orgs: seq<Organization>,
                                            agents: seq<Agent>, org: Organization, role: Role)
    requires Integrity(orgs, members, agents)
    ensures OrgWithRole(Some(org), role) in ListOrganizations(Some(user), members, orgs, QueryRows).payload.organizations
      <==> org in orgs && Membership(org.id, user, role) in members
  {
    var rows := MembershipsOf(members, user);
    var listed := ListOrganizations(Some(user), members, orgs, QueryRows).payload.organizations;
    if OrgWithRole(Some(org), role) in listed {
      var i :| 0 <= i < |listed| && listed[i] == OrgWithRole(Some(org), role);
      assert rows[i] in rows;
    }
    if org in orgs && Membership(org.id, user, role) in members {
      var m := Membership(org.id, user, role);
      assert m in rows;
      var i :| 0 <= i < |rows| && rows[i] == m;
      OrganizationByUniqueId(orgs, org);
      assert listed[i] == OrgWithRole(Some(org), role);
    }
  }

  /** With unique organization ids, looking up an organization's id finds it. */
  lemma {:induction false} OrganizationByUniqueId(orgs: seq<Organization>, org: Organization)
    requires forall i, j :: 0 <= i < j < |orgs| ==> orgs[i].id != orgs[j].id
    requires org in orgs
    ensures OrganizationById(orgs, org.id) == Some(org)
  {
    if orgs[0] != org {
      assert org in orgs[1..];
      assert orgs[0].id != org.id by {
        var k :| 0 <= k < |orgs[1..]| && orgs[1..][k] == org;
        assert orgs[k + 1] == org;
      }
      assert forall i, j :: 0 <= i < j < |orgs[1..]| ==> orgs[1..][i].id != orgs[1..][j].id by {
        forall i, j | 0 <= i < j < |orgs[1..]| ensures orgs[1..][i].id != orgs[1..][j].id {
          assert orgs[1..][i] == orgs[i + 1] && orgs[1..][j] == orgs[j + 1];
        }
      }
      OrganizationByUniqueId(orgs[1..], org);
    }
  }

  /** `POST /api/orgs`. `createOrgSchema` is imported from lib/validations.ts
      but not defined there, so its parse is a parameter: the organization
      name, or the message of the error it throws. `newId` and `now` are
      what the store assigns; `orgFault` and `memberFault` stand for the
      two inserts failing. */
  method CreateOrganization(db: Database, session: Option<UserId>, body: Body,
                            parseOrg: Json -> Result<string, string>,
                            orgFault: Option<string>, memberFault: Option<string>,
                            newId: string, now: int) returns (r: Response)
    requires db.Valid()
    requires forall o :: o in db.organizations ==> o.id != newId
    modifies db
    ensures db.Valid()
    ensures db.agents == old(db.agents)
    ensures session.None? ==> r == Failure(Unauthorized, UnauthorizedMessage)
    ensures session.Some? && body.Malformed? ==> r == Failure(BadRequest, body.message)
    ensures session.Some? && body.Parsed? && parseOrg(body.json).Err? ==>
      r == Failure(BadRequest, parseOrg(body.json).error)
    ensures !(session.Some? && body.Parsed? && parseOrg(body.json).Ok?) ==>
      db.organizations == old(db.organizations) && db.members == old(db.members)
    ensures session.Some? && body.Parsed? && parseOrg(body.json).Ok? ==>
      var org := Organization(newId, parseOrg(body.json).value, now);
      && (orgFault.Some? ==>
            r == Failure(InternalServerError, orgFault.value)
            && db.organizations == old(db.organizations) && db.members == old(db.members))
      && (orgFault.None? ==> db.organizations == old(db.organizations) + [org])
      && (orgFault.None? && memberFault.Some? ==>
            r == Failure(InternalServerError, memberFault.value) && db.members == old(db.members))
      && (orgFault.None? && memberFault.None? ==>
            r == Response(OkStatus, OrganizationCreated(org))
            && db.members == old(db.members) + [Membership(newId, session.value, Owner)])
  {
    if session.None? {
      return Failure(Unauthorized, UnauthorizedMessage);
    }
    if body.Malformed? {
      return Failure(BadRequest, body.message);
    }
    var parsed := parseOrg(body.json);
    if parsed.Err? {
      return Failure(BadRequest, parsed.error);
    }
    var inserted := db.InsertOrganization(newId, parsed.value, now, orgFault);
    if inserted.Err? {
      return Failure(InternalServerError, inserted.error);
    }
    var org := inserted.value;
    assert org in db.organizations;
    forall x | x in db.members ensures x.org_id != org.id {
      assert x in old(db.members);
    }
    var memberError := db.InsertMember(Membership(org.id, session.value, Owner), memberFault);
    if memberError.Some? {
      return Failure(InternalServerError, memberError.value);
    }
    r := Response(OkStatus, OrganizationCreated(org));
  }

  /** The two inserts are not one transaction: when the owner row is
      refused, the new organization stays in the store with no member, so
      no caller ever sees it in `GET /api/orgs`. */
  lemma OwnerRowFailureOrphansOrganization(orgs: seq<Organization>, members: seq<Membership>,
                                           agents: seq<Agent>, org: Organization, user: UserId)
    requires Integrity(orgs, members, agents)
    requires !HasOrganization(orgs, org.id)
    ensures forall m :: m in members ==> m.org_id != org.id
    ensures forall e :: e in ListOrganizations(Some(user), members, orgs + [org], QueryRows).payload.organizations ==>
      e.organization != Some(org)
  {
    var listed := ListOrganizations(Some(user), members, orgs + [org], QueryRows).payload.organizations;
    var rows := MembershipsOf(members, user);
    forall e | e in listed ensures e.organization != Some(org) {
      var i :| 0 <= i < |listed| && listed[i] == e;
      assert rows[i] in rows;
    }
  }
}
