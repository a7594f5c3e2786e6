/**
 The database constraints of the migrations (db/migrations/sqlite) together with
 the facts the transactions are meant to keep, and the joins several
 transactions share.
 */
module Schema {
  import opened Records
  import InvalidationLog

  // ---- joins -----------------------------------------------------------------

  /** Active account with active access to the active deployment. */
  predicate Working(s: State, user: Id) {
    && s.deployment.Some? && s.deployment.value.active
    && HasAccess(s, user)
  }

  predicate HasAccess(s: State, user: Id) {
    user in s.users && s.users[user].active && user in s.access && s.access[user].active
  }

  predicate ActiveSeat(seats: map<Seat, Membership>, org: Id, user: Id) {
    Seat(org, user) in seats && seats[Seat(org, user)].active
  }

  predicate ActiveOrg(orgs: map<Id, Organization>, org: Id) {
    org in orgs && orgs[org].active
  }

  /** The user's seat in an organization that is itself active. */
  predicate InOrg(s: State, org: Id, user: Id) {
    ActiveSeat(s.seats, org, user) && ActiveOrg(s.orgs, org)
  }

  predicate HasOrg(s: State, user: Id) {
    exists seat <- s.seats.Keys :: seat.user == user && InOrg(s, seat.org, user)
  }

  predicate IsOwner(seats: map<Seat, Membership>, org: Id, user: Id) {
    ActiveSeat(seats, org, user) && seats[Seat(org, user)].role == Owner
  }

  predicate IsAdmin(seats: map<Seat, Membership>, org: Id, user: Id) {
    ActiveSeat(seats, org, user) && seats[Seat(org, user)].role == Admin
  }

  function Members(seats: map<Seat, Membership>, org: Id): set<Id> {
    set seat <- seats.Keys | seat.org == org && seats[seat].active :: seat.user
  }

  /** `activeAgentOwner`: the owner's live standing in the organization. */
  predicate Standing(s: State, org: Id, user: Id) {
    InOrg(s, org, user) && HasAccess(s, user)
  }

  predicate LiveAgent(s: State, agent: Id, org: Id, owner: Id) {
    && agent in s.agents && s.agents[agent].org == org && s.agents[agent].owner == owner
    && s.agents[agent].active && Standing(s, org, owner)
  }

  /** A browser session that may act for `user` at `now`. */
  predicate LiveSession(s: State, session: Id, user: Id, now: Time) {
    && session in s.sessions && s.sessions[session].user == user
    && !s.sessions[session].revoked && now < s.sessions[session].expires
  }

  /** `requireOrganizationManager`. */
  predicate Manages(s: State, org: Id, actor: Id, target: Role) {
    Working(s, actor) && InOrg(s, org, actor) && Outranks(s.seats[Seat(org, actor)].role, target)
  }

  /** `requireDeploymentManager`. */
  predicate Administers(s: State, actor: Id, target: Role) {
    Working(s, actor) && Outranks(s.access[actor].role, target)
  }

  predicate UsernameTaken(s: State, username: string) {
    exists u <- s.users.Keys :: s.users[u].username == username
  }

  /** `COALESCE(e.plan_key, 'free')`. */
  function PlanKey(s: State, user: Id): string {
    if user in s.grants then s.grants[user].plan else FREE
  }

  function EntitledUsers(s: State, key: string): set<Id> {
    set u <- s.access.Keys | s.access[u].active && PlanKey(s, u) == key
  }

  function ActiveUsers(s: State): set<Id> {
    set u <- s.access.Keys | s.access[u].active
  }

  function LiveNodesOf(nodes: map<Id, Node>, owner: Id): set<Id> {
    set n <- nodes.Keys | nodes[n].owner == owner && !nodes[n].revoked
  }

  predicate HoldsLiveNode(nodes: map<Id, Node>, session: Id) {
    exists n <- nodes.Keys :: nodes[n].session == session && !nodes[n].revoked
  }

  // ---- invariant, table by table -----------------------------------------------

  /** Index `uq_control_active_organization_membership`. */
  ghost predicate OneActiveSeat(seats: map<Seat, Membership>) {
    forall o, p, u :: ActiveSeat(seats, o, u) && ActiveSeat(seats, p, u) ==> o == p
  }

  /** Index `uq_control_organization_owner`. */
  ghost predicate OneOwner(seats: map<Seat, Membership>) {
    forall o, u, v :: IsOwner(seats, o, u) && IsOwner(seats, o, v) ==> u == v
  }

  ghost predicate HasOwner(seats: map<Seat, Membership>, org: Id) {
    exists u :: IsOwner(seats, org, u)
  }

  ghost predicate SeatsFit(seats: map<Seat, Membership>, orgs: map<Id, Organization>, users: set<Id>) {
    && OneActiveSeat(seats) && OneOwner(seats)
    && (forall k :: k in seats ==> k.org in orgs && k.user in users)
    && (forall k :: k in seats && seats[k].active ==> orgs[k.org].active)
    && (forall o :: ActiveOrg(orgs, o) ==> HasOwner(seats, o))
  }

  ghost predicate AccountsFit(users: map<Id, User>, identities: map<Id, string>, credentials: set<Id>,
      access: set<Id>) {
    && users.Keys == identities.Keys == credentials == access
    && (forall u :: u in users ==> identities[u] == users[u].username)
    && (forall u, v :: u in users && v in users && users[u].username == users[v].username ==> u == v)
  }

  ghost predicate PlatformOwned(access: map<Id, Access>) {
    exists u :: u in access && access[u].active && access[u].role == Owner
  }

  /** The foreign keys and CHECKs of one invitation. */
  predicate InvitationFits(inv: Invitation, orgs: set<Id>, users: set<Id>) {
    && inv.org in orgs && inv.creator in users && inv.role != Owner
    && (inv.acceptedAt.None? || inv.revokedAt.None?)
    && (inv.acceptedBy.None? <==> inv.acceptedAt.None?)
    && (inv.acceptedBy.Some? ==> inv.acceptedBy.value in users)
  }

  ghost predicate InvitationsFit(invitations: map<Id, Invitation>, orgs: set<Id>, users: set<Id>, issued: set<Id>) {
    && (forall i :: i in invitations ==> i in issued && InvitationFits(invitations[i], orgs, users))
    && (forall i, j :: i in invitations && j in invitations && invitations[i].token == invitations[j].token ==> i == j)
  }

  ghost predicate SessionsFit(sessions: map<Id, Session>, access: set<Id>, issued: set<Id>) {
    && (forall k :: k in sessions ==> k in issued && sessions[k].user in access)
    && (forall a, b :: a in sessions && b in sessions && sessions[a].token == sessions[b].token ==> a == b)
  }

  /** The unique key of `agents` besides its primary key. */
  predicate SameSource(a: Agent, b: Agent) {
    a.org == b.org && a.owner == b.owner && a.source == b.source
  }

  /** A published agent never outlives its owner's seat. */
  ghost predicate AgentsFit(agents: map<Id, Agent>, seats: map<Seat, Membership>, orgs: set<Id>, users: set<Id>) {
    && (forall a :: a in agents ==> agents[a].org in orgs && agents[a].owner in users)
    && (forall a :: a in agents && agents[a].active ==> ActiveSeat(seats, agents[a].org, agents[a].owner))
    && (forall a, b :: a in agents && b in agents && SameSource(agents[a], agents[b]) ==> a == b)
  }

  predicate OwnsAgent(agents: map<Id, Agent>, agent: Id, org: Id, owner: Id) {
    agent in agents && agents[agent].active && agents[agent].org == org && agents[agent].owner == owner
  }

  /** What an unrevoked device still holds: a digest, and between one and 32 agents, all active and the owner's. */
  ghost predicate NodeBacked(node: Node, agents: map<Id, Agent>) {
    && node.credential.Digest? && 0 < |node.agents| <= MAX_NODE_AGENTS
    && forall i :: 0 <= i < |node.agents| ==> OwnsAgent(agents, node.agents[i], node.org, node.owner)
  }

  ghost predicate NodesBacked(nodes: map<Id, Node>, agents: map<Id, Agent>) {
    forall n :: n in nodes && !nodes[n].revoked ==> NodeBacked(nodes[n], agents)
  }

  /** A device hangs on a session of its owner; a tombstone carries its own node id. */
  ghost predicate NodesFit(nodes: map<Id, Node>, sessions: map<Id, Session>, orgs: set<Id>, users: set<Id>) {
    && (forall n :: n in nodes ==>
         && nodes[n].org in orgs && nodes[n].owner in users
         && nodes[n].session in sessions && sessions[nodes[n].session].user == nodes[n].owner
         && (nodes[n].credential.Tombstone? ==> nodes[n].credential.node == n))
    && (forall m, n :: m in nodes && n in nodes && nodes[m].credential == nodes[n].credential ==> m == n)
  }

  ghost predicate PlansFit(plans: set<string>, grants: map<Id, Grant>, access: set<Id>) {
    forall u :: u in grants ==> u in access && grants[u].plan in plans
  }

  ghost predicate FreePlan(plans: map<string, Plan>) {
    FREE in plans && plans[FREE].active
  }

  ghost predicate ReceiptsFit(receipts: set<Request>, users: set<Id>) {
    forall r :: r in receipts ==> r.user in users
  }

  /** Set up for good: somebody owns the platform and the free plan is there; before
      that the tables are empty. */
  ghost predicate SetupFits(s: State) {
    && (s.deployment.Some? ==> PlatformOwned(s.access) && FreePlan(s.plans))
    && (s.deployment.None? ==> s.users.Keys == {} && s.orgs.Keys == {} && s.plans.Keys == {} && s.log == [])
  }

  ghost predicate Inv(s: State) {
    && AccountsFit(s.users, s.identities, s.credentials.Keys, s.access.Keys)
    && SeatsFit(s.seats, s.orgs, s.users.Keys)
    && InvitationsFit(s.invitations, s.orgs.Keys, s.users.Keys, s.issuedInvitations)
    && SessionsFit(s.sessions, s.access.Keys, s.issuedSessions)
    && AgentsFit(s.agents, s.seats, s.orgs.Keys, s.users.Keys)
    && NodesFit(s.nodes, s.sessions, s.orgs.Keys, s.users.Keys)
    && NodesBacked(s.nodes, s.agents)
    && PlansFit(s.plans.Keys, s.grants, s.access.Keys)
    && ReceiptsFit(s.receipts.Keys, s.users.Keys)
    && InvalidationLog.Ordered(s.log)
    && SetupFits(s)
  }

  // ---- lookups through a unique index -------------------------------------------

  ghost function InvitationByToken(invitations: map<Id, Invitation>, token: Id): (r: Option<Id>)
    ensures r.Some? ==> r.value in invitations && invitations[r.value].token == token
    ensures r.None? ==> forall i :: i in invitations ==> invitations[i].token != token
  {
    if i :| i in invitations && invitations[i].token == token then Some(i) else None
  }

  ghost function SessionByToken(sessions: map<Id, Session>, token: Id): (r: Option<Id>)
    ensures r.Some? ==> r.value in sessions && sessions[r.value].token == token
    ensures r.None? ==> forall k :: k in sessions ==> sessions[k].token != token
  {
    if k :| k in sessions && sessions[k].token == token then Some(k) else None
  }
}
