/** The Supabase tables the routes read and write: `organizations`,
    `organization_members` and `agents`. Reads see the tables as values;
    inserts change a `Database` object. A store failure (a refused query,
    a dropped connection) is an input: `Some(message)` where the query
    fails, `None` where it succeeds. */
module Store {
  import opened Wrappers
  import opened Types
  import Seqs

  /** The rows that `.eq('org_id', orgId).eq('user_id', userId)` selects. */
  function MembershipRows(members: seq<Membership>, orgId: string, userId: UserId): (r: seq<Membership>)
    ensures forall m :: m in r <==> m in members && m.org_id == orgId && m.user_id == userId
  {
    Seqs.Filter(members, (m: Membership) => m.org_id == orgId && m.user_id == userId)
  }

  /** `.select('role') … .single()`: the role of the one matching row; no
      row, or more than one, is an error, modelled as `None`. */
  function RoleOf(members: seq<Membership>, orgId: string, userId: UserId): (r: Option<Role>)
    ensures r.Some? <==> |MembershipRows(members, orgId, userId)| == 1
    ensures r.Some? ==> r.value == MembershipRows(members, orgId, userId)[0].role
    ensures r.Some? ==> Membership(orgId, userId, r.value) in members
  {
    var rows := MembershipRows(members, orgId, userId);
    if |rows| == 1 then
      assert rows[0] in rows;
      Some(rows[0].role)
    else None
  }

  /** One membership row per organization and user. */
  predicate UniqueMemberships(members: seq<Membership>) {
    forall i, j :: 0 <= i < j < |members| ==>
      members[i].org_id != members[j].org_id || members[i].user_id != members[j].user_id
  }

  predicate HasOrganization(orgs: seq<Organization>, id: string) {
    exists o :: o in orgs && o.id == id
  }

  /** The constraints the tables keep: primary keys on organization and
      agent ids, a unique membership per organization and user, and every
      membership and agent naming an existing organization. */
  predicate Integrity(orgs: seq<Organization>, members: seq<Membership>, agents: seq<Agent>) {
    && (forall i, j :: 0 <= i < j < |orgs| ==> orgs[i].id != orgs[j].id)
    && UniqueMemberships(members)
    && (forall i, j :: 0 <= i < j < |agents| ==> agents[i].id != agents[j].id)
    && (forall m :: m in members ==> HasOrganization(orgs, m.org_id))
    && (forall a :: a in agents ==> HasOrganization(orgs, a.org_id))
  }

  /** With unique memberships at most one row matches. */
  lemma {:induction false} AtMostOneRow(members: seq<Membership>, orgId: string, userId: UserId)
    requires UniqueMemberships(members)
    ensures |MembershipRows(members, orgId, userId)| <= 1
  {
    if members != [] {
      var tail := members[1..];
      assert UniqueMemberships(tail) by {
        forall i, j | 0 <= i < j < |tail|
          ensures tail[i].org_id != tail[j].org_id || tail[i].user_id != tail[j].user_id
        {
          assert tail[i] == members[i + 1] && tail[j] == members[j + 1];
        }
      }
      AtMostOneRow(tail, orgId, userId);
      var m := members[0];
      if m.org_id == orgId && m.user_id == userId {
        forall x | x in tail ensures !(x.org_id == orgId && x.user_id == userId) {
          var k :| 0 <= k < |tail| && tail[k] == x;
          assert members[k + 1] == x;
        }
        assert MembershipRows(tail, orgId, userId) == [];
      }
      assert MembershipRows(members, orgId, userId) ==
        (if m.org_id == orgId && m.user_id == userId then [m] else []) + MembershipRows(tail, orgId, userId);
    }
  }

  /** With unique memberships, `.single()` finds a role exactly when the user holds it in the organization. */
  lemma RoleOfUnique(members: seq<Membership>, orgId: string, userId: UserId, role: Role)
    requires UniqueMemberships(members)
    ensures RoleOf(members, orgId, userId) == Some(role) <==> Membership(orgId, userId, role) in members
  {
    var rows := MembershipRows(members, orgId, userId);
    AtMostOneRow(members, orgId, userId);
    if Membership(orgId, userId, role) in members {
      assert Membership(orgId, userId, role) in rows;
      assert rows[0] == Membership(orgId, userId, role);
    }
  }

  /** The store itself: each insert either fails with the store's message
      and changes nothing, or appends the new row. Ids and timestamps the
      store generates are the caller's arguments. */
  class Database {
    var organizations: seq<Organization>
    var members: seq<Membership>
    var agents: seq<Agent>

    ghost predicate Valid()
      reads this
    {
      Integrity(organizations, members, agents)
    }

    constructor (orgs: seq<Organization>, ms: seq<Membership>, agentRows: seq<Agent>)
      requires Integrity(orgs, ms, agentRows)
      ensures Valid()
      ensures organizations == orgs && members == ms && agents == agentRows
    {
      organizations, members, agents := orgs, ms, agentRows;
    }

    /** `insert({ name }).select().single()` on `organizations`. */
    method InsertOrganization(id: string, name: string, createdAt: int, fault: Option<string>)
      returns (r: Result<Organization, string>)
      requires Valid()
      requires forall o :: o in organizations ==> o.id != id
      modifies this
      ensures Valid()
      ensures members == old(members) && agents == old(agents)
      ensures fault.Some? ==> r == Err(fault.value) && organizations == old(organizations)
      ensures fault.None? ==>
        r == Ok(Organization(id, name, createdAt)) && organizations == old(organizations) + [r.value]
    {
      if fault.Some? {
        return Err(fault.value);
      }
      var org := Organization(id, name, createdAt);
      organizations := organizations + [org];
      r := Ok(org);
      assert forall o :: o in old(organizations) ==> o in organizations;
    }

    /** `insert({ org_id, user_id, role })` on `organization_members`. */
    method InsertMember(m: Membership, fault: Option<string>) returns (error: Option<string>)
      requires Valid()
      requires HasOrganization(organizations, m.org_id)
      requires forall x :: x in members ==> x.org_id != m.org_id || x.user_id != m.user_id
      modifies this
      ensures Valid()
      ensures organizations == old(organizations) && agents == old(agents)
      ensures error == fault
      ensures members == if fault.Some? then old(members) else old(members) + [m]
    {
      error := fault;
      if fault.None? {
        members := members + [m];
        assert forall i :: 0 <= i < |old(members)| ==> members[i] == old(members)[i];
      }
    }

    /** `insert(row).select().single()` on `agents`. */
    method InsertAgent(a: Agent, fault: Option<string>) returns (r: Result<Agent, string>)
      requires Valid()
      requires HasOrganization(organizations, a.org_id)
      requires forall x :: x in agents ==> x.id != a.id
      modifies this
      ensures Valid()
      ensures organizations == old(organizations) && members == old(members)
      ensures fault.Some? ==> r == Err(fault.value) && agents == old(agents)
      ensures fault.None? ==> r == Ok(a) && agents == old(agents) + [a]
    {
      if fault.Some? {
        return Err(fault.value);
      }
      agents := agents + [a];
      r := Ok(a);
      assert forall i :: 0 <= i < |old(agents)| ==> agents[i] == old(agents)[i];
    }
  }
}
