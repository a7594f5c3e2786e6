/**
 Organization transactions: internal/storage/auth/organization.go and the
 organization half of member.go, as functions from the state before to the
 outcome of the whole transaction.
 */
module Organizations {
  import opened Records
  import InvalidationLog
  import Schema
  import Texts

  /** The switch of `MutateOrganization`; `rows` is the order in which the database
      lists the active members. */
  datatype Command =
    | Create(org: Id, name: string)
    | Join(token: Id)
    | Leave
    | Transfer(target: Id)
    | Rename(name: string, rows: seq<Id>)
    | Dissolve(rows: seq<Id>)

  function OrgDraft(user: Id, org: Id, revoked: bool, now: Time): Draft {
    Draft(user, Account, OrganizationChanged, Some(org), revoked, now)
  }

  function ProfileDraft(user: Id, now: Time): Draft {
    Draft(user, Account, ProfileChanged, None, false, now)
  }

  // ---- what `revokeOrganizationMember` does to each table, for a set of members -----

  function RevokeSeats(seats: map<Seat, Membership>, org: Id, users: set<Id>, now: Time): map<Seat, Membership> {
    map k <- seats :: if k.org == org && k.user in users then seats[k].(active := false, updatedAt := now) else seats[k]
  }

  function RevokeAgents(agents: map<Id, Agent>, org: Id, users: set<Id>): map<Id, Agent> {
    map a <- agents ::
      if agents[a].org == org && agents[a].owner in users then agents[a].(active := false) else agents[a]
  }

  function RevokeNodes(nodes: map<Id, Node>, org: Id, users: set<Id>): map<Id, Node> {
    map n <- nodes :: if nodes[n].org == org && nodes[n].owner in users then nodes[n].(revoked := true) else nodes[n]
  }

  /** Members, agents and devices leave together, with one revoking event per listed member. */
  function Evict(s: State, org: Id, rows: seq<Id>, now: Time): State {
    var users := UserSet(rows);
    s.(seats := RevokeSeats(s.seats, org, users, now),
       agents := RevokeAgents(s.agents, org, users),
       nodes := RevokeNodes(s.nodes, org, users),
       log := InvalidationLog.ForUsers(s.log, rows, OrgDraft(0, org, true, now)))
  }

  /** `joinOrganization`: insert, or turn the old row active again. */
  function Enter(s: State, org: Id, user: Id, role: Role, now: Time): State {
    s.(seats := s.seats[Seat(org, user) := Membership(role, true, now)])
  }

  function Notify(s: State, body: Draft): State {
    s.(log := InvalidationLog.Append(s.log, body))
  }

  function SetRole(s: State, org: Id, user: Id, role: Role, now: Time): State
    requires Seat(org, user) in s.seats
  {
    s.(seats := s.seats[Seat(org, user) := s.seats[Seat(org, user)].(role := role, updatedAt := now)])
  }

  function Handover(s: State, org: Id, owner: Id, target: Id, now: Time): State
    requires Seat(org, owner) in s.seats && Seat(org, target) in s.seats
  {
    SetRole(SetRole(s, org, owner, Admin, now), org, target, Owner, now)
  }

  function Found(s: State, org: Id, name: string, user: Id, now: Time): State {
    Enter(s.(orgs := s.orgs[org := Organization(name, true)]), org, user, Owner, now)
  }

  predicate Open(inv: Invitation, now: Time) {
    inv.acceptedAt.None? && inv.revokedAt.None? && now < inv.expires
  }

  function Accept(s: State, invitation: Id, user: Id, now: Time): State
    requires invitation in s.invitations
  {
    s.(invitations := s.invitations[invitation :=
      s.invitations[invitation].(acceptedBy := Some(user), acceptedAt := Some(now))])
  }

  /** What SQL asks of the generated id and the listed rows. */
  ghost predicate Admissible(s: State, home: Option<Id>, command: Command) {
    match command
    case Create(org, _) => org !in s.orgs
    case Rename(_, rows) => home.Some? ==> Lists(rows, Schema.Members(s.seats, home.value))
    case Dissolve(rows) => home.Some? ==> Lists(rows, Schema.Members(s.seats, home.value))
    case _ => true
  }

  ghost function Mutate(s: State, actor: Id, home: Option<Id>, command: Command, now: Time): Tx {
    if !Schema.Working(s, actor) then Abort(StateConflict)
    else if command.Create? || command.Join? then
      if Schema.HasOrg(s, actor) then Abort(StateConflict)
      else if command.Create? then
        Commit(Notify(Found(s, command.org, command.name, actor, now), OrgDraft(actor, command.org, false, now)))
      else
        JoinByToken(s, actor, command.token, now)
    else if home.None? || !Schema.InOrg(s, home.value, actor) then Abort(StateConflict)
    else MutateHome(s, actor, home.value, command, now)
  }

  ghost function JoinByToken(s: State, actor: Id, token: Id, now: Time): Tx {
    var i := Schema.InvitationByToken(s.invitations, token);
    if i.None? || !Open(s.invitations[i.value], now) || !Schema.ActiveOrg(s.orgs, s.invitations[i.value].org) then
      Abort(InvitationInvalid)
    else
      var inv := s.invitations[i.value];
      Commit(Notify(Accept(Enter(s, inv.org, actor, inv.role, now), i.value, actor, now),
        OrgDraft(actor, inv.org, false, now)))
  }

  ghost function MutateHome(s: State, actor: Id, org: Id, command: Command, now: Time): Tx
    requires Seat(org, actor) in s.seats && org in s.orgs
  {
    var role := s.seats[Seat(org, actor)].role;
    match command
    case Leave =>
      if role == Owner then Abort(LastOwner) else Commit(Evict(s, org, [actor], now))
    case Transfer(target) =>
      if role != Owner || target == actor || !Schema.ActiveSeat(s.seats, org, target)
         || !Schema.HasAccess(s, target) then Abort(StateConflict)
      else Commit(Notify(Notify(Handover(s, org, actor, target, now),
        OrgDraft(target, org, false, now)), OrgDraft(actor, org, false, now)))
    case Rename(name, rows) =>
      if role == Member then Abort(StateConflict)
      else Commit(s.(orgs := s.orgs[org := s.orgs[org].(name := name)],
                     log := InvalidationLog.ForUsers(s.log, rows, OrgDraft(0, org, false, now))))
    case Dissolve(rows) =>
      if role != Owner then Abort(StateConflict)
      else var out := Evict(s, org, rows, now);
        Commit(out.(orgs := out.orgs[org := out.orgs[org].(active := false)]))
    case _ => Abort(StateConflict)
  }

  // ---- UpdateMember ---------------------------------------------------------------

  /** The optimistic check of both member updates. */
  datatype Expected = Expected(role: Role, active: bool, version: Time)

  datatype Change = Change(role: Role, active: bool, name: string)

  /** The service rule for a rename; an update that gives no name keeps the stored one unasked. */
  predicate RenameAllowed(current: string, next: string) {
    next == current || Texts.DisplayNameAllowed(next)
  }

  function Later(a: Time, b: Time): Time {
    if a < b then b else a
  }

  function RenamedUsers(users: map<Id, User>, user: Id, name: string, now: Time): map<Id, User>
    requires user in users
  {
    if name == users[user].displayName then users
    else users[user := users[user].(displayName := name, updatedAt := now)]
  }

  /** `appendProfileInvalidations`: only where the user has active access. */
  function ProfileLog(log: seq<Event>, access: map<Id, Access>, user: Id, now: Time): seq<Event> {
    if user in access && access[user].active then InvalidationLog.Append(log, ProfileDraft(user, now)) else log
  }

  /** Events of an admitted organization change: the name first, then the seat. */
  function SeatLog(log: seq<Event>, renamed: bool, org: Id, user: Id, role: Role, next: Change, now: Time): seq<Event> {
    var named := if renamed then InvalidationLog.Append(log, ProfileDraft(user, now)) else log;
    if !next.active then InvalidationLog.Append(named, OrgDraft(user, org, true, now))
    else if next.role != role then InvalidationLog.Append(named, OrgDraft(user, org, false, now))
    else named
  }

  /** The seat as written; a revoked one takes its agents and devices along. */
  function SeatRows(s: State, org: Id, user: Id, next: Change, now: Time): State {
    s.(seats := s.seats[Seat(org, user) := Membership(next.role, next.active, now)],
       agents := if next.active then s.agents else RevokeAgents(s.agents, org, {user}),
       nodes := if next.active then s.nodes else RevokeNodes(s.nodes, org, {user}))
  }

  /** The state after an admitted change: seat, name, events. */
  function ChangeSeat(s: State, org: Id, user: Id, next: Change, now: Time): State
    requires user in s.users && user in s.access && Seat(org, user) in s.seats
  {
    SeatRows(s, org, user, next, now).(
      users := RenamedUsers(s.users, user, next.name, now),
      log := SeatLog(s.log, next.name != s.users[user].displayName && s.access[user].active, org, user,
        s.seats[Seat(org, user)].role, next, now))
  }

  function SeatVersion(s: State, org: Id, user: Id): Expected
    requires user in s.users && Seat(org, user) in s.seats
  {
    var row := s.seats[Seat(org, user)];
    Expected(row.role, row.active, Later(s.users[user].updatedAt, row.updatedAt))
  }

  function UpdateMember(s: State, org: Id, user: Id, actor: Id, expected: Expected, next: Change, now: Time): Tx {
    if user !in s.users || user !in s.access || Seat(org, user) !in s.seats then Abort(NotFound)
    else if !RenameAllowed(s.users[user].displayName, next.name) then Abort(RequestInvalid)
    else if expected != SeatVersion(s, org, user) || !expected.active then Abort(StateConflict)
    else if !Schema.Manages(s, org, actor, expected.role) || !Schema.Manages(s, org, actor, next.role) then
      Abort(StateConflict)
    else if actor == user && !next.active then Abort(StateConflict)
    else Commit(ChangeSeat(s, org, user, next, now))
  }
}
