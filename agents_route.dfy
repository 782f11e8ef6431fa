/** app/api/agents/route.ts: `GET` lists an organization's agents to its
    members, `POST` creates an agent for an owner, admin or editor. */
module AgentsRoute {
  import opened Wrappers
  import opened Types
  import opened Json
  import opened Validations
  import opened Http
  import opened Store
  import Seqs

  const OrgIdRequired := "org_id parameter is required"
  const AccessDenied := "Access denied"
  const InsufficientPermissions := "Insufficient permissions"

  // ---- GET ---------------------------------------------------------------

  /** `.order('created_at', { ascending: false })`. */
  predicate NewestFirst(s: seq<Agent>) {
    forall i, j :: 0 <= i < j < |s| ==> s[i].created_at >= s[j].created_at
  }

  function InsertByDate(a: Agent, s: seq<Agent>): (r: seq<Agent>)
    requires NewestFirst(s)
    ensures NewestFirst(r)
    ensures multiset(r) == multiset(s) + multiset{a}
    ensures |r| == |s| + 1
    ensures r[0] == if s == [] || a.created_at >= s[0].created_at then a else s[0]
  {
    if s == [] || a.created_at >= s[0].created_at then [a] + s
    else
      assert s == [s[0]] + s[1..];
      var rest := InsertByDate(a, s[1..]);
      assert rest[0].created_at <= s[0].created_at;
      [s[0]] + rest
  }

  /** The rows sorted newest first; rows with equal timestamps keep no particular order. */
  function SortNewestFirst(s: seq<Agent>): (r: seq<Agent>)
    ensures NewestFirst(r)
    ensures multiset(r) == multiset(s)
  {
    if s == [] then []
    else
      assert s == [s[0]] + s[1..];
      InsertByDate(s[0], SortNewestFirst(s[1..]))
  }

  /** `.eq('org_id', orgId)` on `agents`. */
  function AgentsOf(agents: seq<Agent>, orgId: string): (r: seq<Agent>)
    ensures forall a :: a in r <==> a in agents && a.org_id == orgId
  {
    Seqs.Filter(agents, (a: Agent) => a.org_id == orgId)
  }

  /** A present, non-empty `org_id` query parameter (`!orgId` refuses the empty string). */
  predicate HasOrgId(orgIdParam: Option<string>) {
    orgIdParam.Some? && orgIdParam.value != ""
  }

  /** `GET /api/agents?org_id=…`. `session` is the signed-in user (`None`
      when there is none or `getUser` fails); `memberFault` and `listFault`
      stand for the two queries failing. */
  function ListAgents(orgIdParam: Option<string>, session: Option<UserId>, members: seq<Membership>,
                      agents: seq<Agent>, memberFault: bool, listFault: Option<string>): (r: Response)
    ensures !HasOrgId(orgIdParam) ==> r == Failure(BadRequest, OrgIdRequired)
    ensures HasOrgId(orgIdParam) && session.None? ==> r == Failure(Unauthorized, UnauthorizedMessage)
    ensures HasOrgId(orgIdParam) && session.Some? && memberFault ==> r == Failure(Forbidden, AccessDenied)
    ensures HasOrgId(orgIdParam) && session.Some? && RoleOf(members, orgIdParam.value, session.value).None? ==>
      r == Failure(Forbidden, AccessDenied)
    ensures (HasOrgId(orgIdParam) && session.Some? && !memberFault &&
             RoleOf(members, orgIdParam.value, session.value).Some? && listFault.Some?) ==>
      r == Failure(InternalServerError, listFault.value)
    ensures r.status == OkStatus <==>
      HasOrgId(orgIdParam) && session.Some? && !memberFault &&
      RoleOf(members, orgIdParam.value, session.value).Some? && listFault.None?
    ensures r.status != OkStatus ==> r.payload.ErrorMessage?
    ensures r.status == OkStatus ==>
      && r.payload.AgentList?
      && NewestFirst(r.payload.agents)
      && multiset(r.payload.agents) == multiset(AgentsOf(agents, orgIdParam.value))
  {
    if !HasOrgId(orgIdParam) then Failure(BadRequest, OrgIdRequired)
    else if session.None? then Failure(Unauthorized, UnauthorizedMessage)
    else if memberFault || RoleOf(members, orgIdParam.value, session.value).None? then
      Failure(Forbidden, AccessDenied)
    else if listFault.Some? then Failure(InternalServerError, listFault.value)
    else Response(OkStatus, AgentList(SortNewestFirst(AgentsOf(agents, orgIdParam.value))))
  }

  /** A listing is only handed to a member of the organization, whatever
      their role, and holds exactly that organization's agents. */
  lemma ListingIsForMembers(orgIdParam: Option<string>, session: Option<UserId>, members: seq<Membership>,
                            agents: seq<Agent>, memberFault: bool, listFault: Option<string>)
    requires ListAgents(orgIdParam, session, members, agents, memberFault, listFault).status == OkStatus
    ensures exists role :: Membership(orgIdParam.value, session.value, role) in members
    ensures var listed := ListAgents(orgIdParam, session, members, agents, memberFault, listFault).payload.agents;
      forall a :: a in listed <==> a in agents && a.org_id == orgIdParam.value
  {
    var role := RoleOf(members, orgIdParam.value, session.value).value;
    assert Membership(orgIdParam.value, session.value, role) in members;
    var listed := ListAgents(orgIdParam, session, members, agents, memberFault, listFault).payload.agents;
    var expected := AgentsOf(agents, orgIdParam.value);
    forall a ensures a in listed <==> a in expected {
      assert a in listed <==> multiset(listed)[a] > 0;
      assert a in expected <==> multiset(expected)[a] > 0;
    }
  }

  // ---- POST --------------------------------------------------------------

  /** The roles allowed to create agents: `['owner', 'admin', 'editor']`. */
  predicate CanCreateAgents(role: Role) {
    role == Owner || role == Admin || role == Editor
  }

  /** What `POST /api/agents` does before the insert: answer at once, or
      insert the validated body on behalf of `user`. */
  datatype CreateStep = Answer(response: Response) | InsertRow(data: CreateAgentData, user: UserId)

  /** The checks of `POST /api/agents` in the order the handler makes them:
      the session, the JSON body, the schema, then the caller's membership
      of the organization the body names and its role there. */
  function CreateAgentStep(session: Option<UserId>, body: Body, members: seq<Membership>, memberFault: bool)
    : (s: CreateStep)
    ensures session.None? ==> s == Answer(Failure(Unauthorized, UnauthorizedMessage))
    ensures session.Some? && body.Malformed? ==> s == Answer(Failure(BadRequest, body.message))
    ensures session.Some? && body.Parsed? && ValidateCreateAgent(body.json).Err? ==>
      s == Answer(Response(BadRequest, InvalidBody(ValidateCreateAgent(body.json).error)))
    ensures s.InsertRow? <==>
      && session.Some? && body.Parsed? && ValidateCreateAgent(body.json).Ok? && !memberFault
      && RoleOf(members, ValidateCreateAgent(body.json).value.org_id, session.value).Some?
      && CanCreateAgents(RoleOf(members, ValidateCreateAgent(body.json).value.org_id, session.value).value)
    ensures s.InsertRow? ==> s.user == session.value && s.data == ValidateCreateAgent(body.json).value
    ensures (session.Some? && body.Parsed? && ValidateCreateAgent(body.json).Ok? &&
             (memberFault || RoleOf(members, ValidateCreateAgent(body.json).value.org_id, session.value).None?)) ==>
      s == Answer(Failure(Forbidden, AccessDenied))
    ensures (session.Some? && body.Parsed? && ValidateCreateAgent(body.json).Ok? && !memberFault &&
             RoleOf(members, ValidateCreateAgent(body.json).value.org_id, session.value).Some? &&
             !CanCreateAgents(RoleOf(members, ValidateCreateAgent(body.json).value.org_id, session.value).value)) ==>
      s == Answer(Failure(Forbidden, InsufficientPermissions))
  {
    if session.None? then Answer(Failure(Unauthorized, UnauthorizedMessage))
    else if body.Malformed? then Answer(Failure(BadRequest, body.message))
    else
      match ValidateCreateAgent(body.json)
      case Err(issues) => Answer(Response(BadRequest, InvalidBody(issues)))
      case Ok(data) =>
        var role := RoleOf(members, data.org_id, session.value);
        if memberFault || role.None? then Answer(Failure(Forbidden, AccessDenied))
        else if !CanCreateAgents(role.value) then Answer(Failure(Forbidden, InsufficientPermissions))
        else InsertRow(data, session.value)
  }

  /** An insert happens only for an owner, admin or editor of the
      organization the validated body names; with unique memberships, every
      such caller with a valid body gets that far. */
  lemma CreateNeedsWriterRole(session: Option<UserId>, body: Body, members: seq<Membership>, memberFault: bool)
    requires UniqueMemberships(members)
    ensures var s := CreateAgentStep(session, body, members, memberFault);
      s.InsertRow? <==>
        && session.Some? && body.Parsed? && ValidateCreateAgent(body.json).Ok? && !memberFault
        && exists role :: CanCreateAgents(role)
             && Membership(ValidateCreateAgent(body.json).value.org_id, session.value, role) in members
  {
    if session.Some? && body.Parsed? && ValidateCreateAgent(body.json).Ok? {
      var org := ValidateCreateAgent(body.json).value.org_id;
      forall role | Membership(org, session.value, role) in members
        ensures RoleOf(members, org, session.value) == Some(role)
      {
        RoleOfUnique(members, org, session.value, role);
      }
    }
  }

  /** An analyst or a viewer never creates an agent. */
  lemma ReadOnlyRolesCannotCreate(session: Option<UserId>, body: Body, members: seq<Membership>,
                                  memberFault: bool, role: Role)
    requires UniqueMemberships(members)
    requires role == Analyst || role == Viewer
    requires session.Some? && body.Parsed? && ValidateCreateAgent(body.json).Ok?
    requires Membership(ValidateCreateAgent(body.json).value.org_id, session.value, role) in members
    ensures CreateAgentStep(session, body, members, memberFault).Answer?
    ensures CreateAgentStep(session, body, members, memberFault).response.status == Forbidden
  {
    RoleOfUnique(members, ValidateCreateAgent(body.json).value.org_id, session.value, role);
  }

  /** The row `{ ...validatedData, created_by: user.id }` with the id and
      timestamp the store assigns. */
  function NewAgent(data: CreateAgentData, user: UserId, id: string, createdAt: int): (a: Agent)
    ensures a.id == id && a.created_at == createdAt && a.created_by == user
    ensures a.org_id == data.org_id && a.name == data.name && a.language == data.language
    ensures a.system_prompt == data.system_prompt && a.elevenlabs_voice_id == data.elevenlabs_voice_id
    ensures a.voice_stability == Some(data.voice_stability)
    ensures a.voice_similarity_boost == Some(data.voice_similarity_boost)
    ensures a.voice_style == data.voice_style
  {
    Agent(id, data.org_id, data.name, data.language, data.system_prompt, data.elevenlabs_voice_id,
          Some(data.voice_stability), Some(data.voice_similarity_boost), data.voice_style, user, createdAt)
  }

  /** `POST /api/agents`. `newId` and `now` are the id and timestamp the
      store gives the new row; `insertFault` stands for the insert failing. */
  method CreateAgent(db: Database, session: Option<UserId>, body: Body, memberFault: bool,
                     insertFault: Option<string>, newId: string, now: int) returns (r: Response)
    requires db.Valid()
    requires forall a :: a in db.agents ==> a.id != newId
    modifies db
    ensures db.Valid()
    ensures db.organizations == old(db.organizations) && db.members == old(db.members)
    ensures var s := CreateAgentStep(session, body, old(db.members), memberFault);
      match s
      case Answer(response) => r == response && db.agents == old(db.agents)
      case InsertRow(data, user) =>
        if insertFault.Some? then
          r == Failure(InternalServerError, insertFault.value) && db.agents == old(db.agents)
        else
          r == Response(OkStatus, AgentCreated(NewAgent(data, user, newId, now)))
          && db.agents == old(db.agents) + [NewAgent(data, user, newId, now)]
  {
    var step := CreateAgentStep(session, body, db.members, memberFault);
    match step
    case Answer(response) =>
      r := response;
    case InsertRow(data, user) =>
      var role := RoleOf(db.members, data.org_id, user).value;
      assert Membership(data.org_id, user, role) in db.members;
      var row := NewAgent(data, user, newId, now);
      var inserted := db.InsertAgent(row, insertFault);
      match inserted
      case Err(message) =>
        r := Failure(InternalServerError, message);
      case Ok(agent) =>
        r := Response(OkStatus, AgentCreated(agent));
  }
}
