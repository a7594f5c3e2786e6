/**
 The repository as it runs: one field per table, statements that write one table at a
 time, and one method per transaction. Every statement that touches memberships must find both
 unique indexes intact, so the order of statements matters here; every transaction is proved to
 leave exactly the state the functions of the other modules define.
 Sources: internal/storage/auth.
 */
module Repository {
  import opened Records
  import opened InvalidationLog
  import opened Schema
  import opened Organizations
  import opened Accounts
  import opened Entitlements
  import opened Preservation
  import Coherence
  import Devices
  import Invitations
  import Machines
  import OrganizationInvariant
  import Sessions

  function FaultOf(tx: Tx): Option<Fault> {
    if tx.Commit? then None else Some(tx.fault)
  }

  /** What the exchange answers: a token for the device, or why not. */
  datatype Exchange =
    | Token(node: Id, owner: Id, org: Id, session: Id, scope: seq<Id>)
    | Unauthenticated
    | Forbidden
    | Invalid

  /** Device `n` is the one the credential stands for. */
  predicate Carries(s: State, n: Id, digest: Id) {
    n in s.nodes && s.nodes[n].credential == Digest(digest)
  }

  /** The token speaks for exactly what was registered. */
  predicate Names(out: Exchange, node: Node)
    requires out.Token?
  {
    out.scope == node.agents && out.owner == node.owner && out.org == node.org && out.session == node.session
  }

  /** `ResolveNodeOwner`: the parent session is unrevoked and its user still works here. */
  predicate OwnerResolves(s: State, node: Node) {
    && node.session in s.sessions && !s.sessions[node.session].revoked && s.sessions[node.session].user == node.owner
    && Working(s, node.owner)
  }

  /** The command with the rows the database listed. */
  function Listed(command: Command, rows: seq<Id>): Command {
    match command
    case Rename(name, _) => Rename(name, rows)
    case Dissolve(_) => Dissolve(rows)
    case _ => command
  }

  /** A SELECT of ids: every one of them once, in some order. */
  method Select(items: set<Id>) returns (rows: seq<Id>)
    ensures Lists(rows, items)
  {
    rows := [];
    var left := items;
    while left != {}
      invariant left <= items
      invariant Lists(rows, items - left)
      decreases |left|
    {
      var x :| x in left;
      rows, left := rows + [x], left - {x};
    }
  }

  // ---- statement by statement: what the two member updates do ----------------------------

  function Seated(s: State, org: Id, user: Id, next: Change, now: Time): State {
    s.(seats := s.seats[Seat(org, user) := Membership(next.role, next.active, now)])
  }

  function Admitted(s: State, user: Id, row: Access): State {
    s.(access := s.access[user := row])
  }

  function Named(s: State, user: Id, name: string, now: Time): State {
    s.(users := if user in s.users then RenamedUsers(s.users, user, name, now) else s.users)
  }

  function Told(s: State, told: bool, body: Draft): State {
    s.(log := if told then Append(s.log, body) else s.log)
  }

  function LoggedOut(s: State, user: Id, out: bool): State {
    s.(sessions := if out then RevokeSessionsOf(s.sessions, user) else s.sessions)
  }

  class Repository {
    var deployment: Option<Deployment>
    var users: map<Id, User>
    var identities: map<Id, string>
    var credentials: map<Id, Hash>
    var access: map<Id, Access>
    var orgs: map<Id, Organization>
    var seats: map<Seat, Membership>
    var invitations: map<Id, Invitation>
    var sessions: map<Id, Session>
    var agents: map<Id, Agent>
    var nodes: map<Id, Node>
    var plans: map<string, Plan>
    var grants: map<Id, Grant>
    var receipts: map<Request, Effect>
    var log: seq<Event>
    /** Every id the two generators have handed out; not a table. */
    var issuedSessions: set<Id>
    var issuedInvitations: set<Id>

    function Snapshot(): State
      reads this
    {
      State(deployment, users, identities, credentials, access, orgs, seats, invitations, sessions, agents, nodes,
            plans, grants, receipts, log,
        issuedSessions, issuedInvitations)
    }

    ghost predicate Valid()
      reads this
    {
      Inv(Snapshot())
    }

    constructor ()
      ensures Valid() && Snapshot() == EMPTY
    {
      deployment, users, identities, credentials, access := None, map[], map[], map[], map[];
      orgs, seats, invitations, sessions, agents, nodes := map[], map[], map[], map[], map[], map[];
      plans, grants, receipts, log, issuedSessions, issuedInvitations := map[], map[], map[], [], {}, {};
    }

    // ---- statements ------------------------------------------------------------------

    method AppendInvalidation(body: Draft)
      modifies this
      ensures Snapshot() == Notify(old(Snapshot()), body)
    {
      log := log + [Event(LatestId(log) + 1, body)];
    }

    method WriteOrganization(org: Id, row: Organization)
      modifies this
      ensures Snapshot() == old(Snapshot()).(orgs := old(Snapshot()).orgs[org := row])
    {
      orgs := orgs[org := row];
    }

    /** INSERT or UPDATE of one membership row, refused by the database unless both partial
        unique indexes hold afterwards. */
    method WriteSeat(key: Seat, row: Membership)
      requires OneActiveSeat(Snapshot().seats[key := row]) && OneOwner(Snapshot().seats[key := row])
      modifies this
      ensures Snapshot() == old(Snapshot()).(seats := old(Snapshot()).seats[key := row])
    {
      seats := seats[key := row];
    }

    method WriteInvitation(i: Id, row: Invitation)
      modifies this
      ensures Snapshot() == old(Snapshot()).(invitations := old(Snapshot()).invitations[i := row])
    {
      invitations := invitations[i := row];
    }

    /** `UPDATE organization_memberships SET status='revoked' …`. */
    method RevokeSeat(org: Id, user: Id, now: Time)
      modifies this
      ensures Snapshot() == old(Snapshot()).(seats := RevokeSeats(old(Snapshot()).seats, org, {user}, now))
      ensures OneActiveSeat(old(Snapshot()).seats) && OneOwner(old(Snapshot()).seats) ==>
                OneActiveSeat(Snapshot().seats) && OneOwner(Snapshot().seats)
    {
      OrganizationInvariant.EvictSeats(seats, org, {user}, now);
      hide OneActiveSeat, OneOwner;
      seats := map k <- seats ::
        if k.org == org && k.user == user then seats[k].(active := false, updatedAt := now)
        else seats[k];
      assert seats == RevokeSeats(old(seats), org, {user}, now);
    }

    method RevokeAgentsOf(org: Id, user: Id)
      modifies this
      ensures Snapshot() == old(Snapshot()).(agents := RevokeAgents(old(Snapshot()).agents, org, {user}))
    {
      agents := map a <- agents ::
        if agents[a].org == org && agents[a].owner == user then agents[a].(active := false)
        else agents[a];
      assert agents == RevokeAgents(old(agents), org, {user});
    }

    method RevokeNodesIn(org: Id, user: Id)
      modifies this
      ensures Snapshot() == old(Snapshot()).(nodes := RevokeNodes(old(Snapshot()).nodes, org, {user}))
    {
      nodes := map n <- nodes ::
        if nodes[n].org == org && nodes[n].owner == user then nodes[n].(revoked := true)
        else nodes[n];
      assert nodes == RevokeNodes(old(nodes), org, {user});
    }

    /** `revokeOrganizationMember`: three updates and one event. */
    method RevokeOrganizationMember(org: Id, user: Id, now: Time)
      modifies this
      ensures Snapshot() == Evict(old(Snapshot()), org, [user], now)
    {
      ghost var s := Snapshot();
      hide Snapshot, Evict, RevokeSeats, RevokeAgents, RevokeNodes;
      EvictOne(s, org, user, now);
      RevokeSeat(org, user, now);
      RevokeAgentsOf(org, user);
      RevokeNodesIn(org, user);
      AppendInvalidation(OrgDraft(user, org, true, now));
    }

    /** Rollback of a transaction that wrote sessions and devices. */
    method RollbackSessions(s: State)
      modifies this
      ensures Snapshot() == old(Snapshot()).(sessions := s.sessions, nodes := s.nodes)
    {
      sessions, nodes := s.sessions, s.nodes;
    }

    /** Rollback of a transaction that wrote plans and grants. */
    method RollbackBilling(s: State)
      modifies this
      ensures Snapshot() == old(Snapshot()).(plans := s.plans, grants := s.grants)
    {
      plans, grants := s.plans, s.grants;
    }

    /** Rollback of a transaction that wrote a receipt. */
    method RollbackReceipts(s: State)
      modifies this
      ensures Snapshot() == old(Snapshot()).(receipts := s.receipts)
    {
      receipts := s.receipts;
    }

    method WriteDeployment(row: Deployment)
      modifies this
      ensures Snapshot() == old(Snapshot()).(deployment := Some(row))
    {
      deployment := Some(row);
    }

    /** The inserts every new account consists of. */
    method InsertAccount(a: NewAccount, role: Role, webDisabled: bool, now: Time)
      modifies this
      ensures Snapshot() == AddAccount(old(Snapshot()), a, role, webDisabled, now)
    {
      hide Snapshot;
      InsertUser(a, now);
      InsertLogin(a, role, webDisabled, now);
    }

    method InsertUser(a: NewAccount, now: Time)
      modifies this
      ensures var s := old(Snapshot());
              Snapshot() == s.(users := s.users[a.user := User(a.username, a.displayName, "", true, now)],
                identities := s.identities[a.user := a.username])
    {
      users := users[a.user := User(a.username, a.displayName, "", true, now)];
      identities := identities[a.user := a.username];
    }

    method InsertLogin(a: NewAccount, role: Role, webDisabled: bool, now: Time)
      modifies this
      ensures var s := old(Snapshot());
              Snapshot() == s.(credentials := s.credentials[a.user := a.password],
                access := s.access[a.user := Access(role, true, webDisabled, now)])
    {
      credentials := credentials[a.user := a.password];
      access := access[a.user := Access(role, true, webDisabled, now)];
    }

    method WriteUser(user: Id, row: User)
      modifies this
      ensures Snapshot() == old(Snapshot()).(users := old(Snapshot()).users[user := row])
    {
      users := users[user := row];
    }

    method WriteAccess(user: Id, row: Access)
      modifies this
      ensures Snapshot() == old(Snapshot()).(access := old(Snapshot()).access[user := row])
    {
      access := access[user := row];
    }

    method RevokeSessions(user: Id)
      modifies this
      ensures Snapshot() == old(Snapshot()).(sessions := RevokeSessionsOf(old(Snapshot()).sessions, user))
    {
      sessions := map k <- sessions :: if sessions[k].user == user then sessions[k].(revoked := true) else sessions[k];
      assert sessions == RevokeSessionsOf(old(sessions), user);
    }

    method WritePlan(key: string, row: Plan)
      modifies this
      ensures Snapshot() == old(Snapshot()).(plans := old(Snapshot()).plans[key := row])
    {
      plans := plans[key := row];
    }

    method WriteGrant(user: Id, row: Grant)
      modifies this
      ensures Snapshot() == old(Snapshot()).(grants := old(Snapshot()).grants[user := row])
    {
      grants := grants[user := row];
    }

    method WriteSession(k: Id, row: Session)
      modifies this
      ensures Snapshot() == old(Snapshot()).(sessions := old(Snapshot()).sessions[k := row])
    {
      sessions := sessions[k := row];
    }

    method WriteNode(n: Id, row: Node)
      modifies this
      ensures Snapshot() == old(Snapshot()).(nodes := old(Snapshot()).nodes[n := row])
    {
      nodes := nodes[n := row];
    }

    /** `DELETE FROM sessions …`; the foreign key deletes the devices that hang on them. */
    method DeleteSessions(now: Time)
      modifies this
      ensures Snapshot() == Sessions.Purge(old(Snapshot()), now)
    {
      var dead := set k <- sessions.Keys |
        (sessions[k].expires <= now || sessions[k].revoked) && !HoldsLiveNode(nodes, k);
      assert dead == Sessions.DeadSessions(Snapshot(), now);
      sessions := map k <- sessions | k !in dead :: sessions[k];
      nodes := map n <- nodes | nodes[n].session !in dead :: nodes[n];
    }

    method WriteReceipt(key: Request, effect: Effect)
      modifies this
      ensures Snapshot() == old(Snapshot()).(receipts := old(Snapshot()).receipts[key := effect])
    {
      receipts := receipts[key := effect];
    }

    method WriteCredential(user: Id, hash: Hash)
      modifies this
      ensures Snapshot() == old(Snapshot()).(credentials := old(Snapshot()).credentials[user := hash])
    {
      credentials := credentials[user := hash];
    }

    method DeleteInvitationRow(i: Id)
      modifies this
      ensures Snapshot() == old(Snapshot()).(invitations := old(Snapshot()).invitations - {i})
    {
      invitations := invitations - {i};
    }

    /** A session id is handed out. */
    method IssueSession(k: Id)
      modifies this
      ensures Snapshot() == old(Snapshot()).(issuedSessions := old(Snapshot()).issuedSessions + {k})
    {
      issuedSessions := issuedSessions + {k};
    }

    /** An invitation id is handed out. */
    method IssueInvitation(i: Id)
      modifies this
      ensures Snapshot() == old(Snapshot()).(issuedInvitations := old(Snapshot()).issuedInvitations + {i})
    {
      issuedInvitations := issuedInvitations + {i};
    }

    /** `INSERT … ON CONFLICT (source) DO UPDATE`. */
    method WriteAgent(id: Id, row: Agent)
      modifies this
      ensures Snapshot() == old(Snapshot()).(agents := Devices.PutAgent(old(Snapshot()).agents, id, row))
    {
      if exists a <- agents.Keys :: SameSource(agents[a], row) {
        agents := map a <- agents :: if SameSource(agents[a], row) then row else agents[a];
      } else {
        agents := agents[id := row];
      }
    }

    method RenameUser(user: Id, name: string, now: Time)
      requires user in Snapshot().users
      modifies this
      ensures Snapshot() == old(Snapshot()).(users := RenamedUsers(old(Snapshot()).users, user, name, now))
    {
      if name != users[user].displayName {
        users := users[user := users[user].(displayName := name, updatedAt := now)];
      }
    }

    /** Lookup through the unique token index. */
    method FindInvitation(token: Id) returns (i: Option<Id>)
      requires Valid()
      ensures i == InvitationByToken(Snapshot().invitations, token)
    {
      ghost var s := Snapshot();
      hide Inv;
      var left := invitations.Keys;
      while left != {}
        invariant left <= invitations.Keys && Snapshot() == s
        invariant forall k :: k in invitations && k !in left ==> invitations[k].token != token
        decreases |left|
      {
        var k :| k in left;
        if invitations[k].token == token {
          OneInvitation(s, k);
          return Some(k);
        }
        left := left - {k};
      }
      return None;
    }

    /** One event for each listed user. */
    method AppendForUsers(rows: seq<Id>, template: Draft)
      modifies this
      ensures Snapshot() == old(Snapshot()).(log := ForUsers(old(Snapshot()).log, rows, template))
    {
      ghost var s := Snapshot();
      hide Snapshot;
      for i := 0 to |rows|
        invariant Snapshot() == s.(log := ForUsers(s.log, rows[..i], template))
      {
        MoreRows(s.log, rows[..i], rows[i], template);
        assert rows[..i + 1] == rows[..i] + [rows[i]];
        AppendInvalidation(template.(user := rows[i]));
      }
      assert rows[..|rows|] == rows;
    }

    // ---- organizations -------------------------------------------------------------------

    method CreateOrganization(org: Id, name: string, actor: Id, now: Time)
      requires Valid() && !HasOrg(Snapshot(), actor) && org !in Snapshot().orgs
      modifies this
      ensures Snapshot() == Notify(Found(old(Snapshot()), org, name, actor, now), OrgDraft(actor, org, false, now))
    {
      ghost var s := Snapshot();
      hide Snapshot, OneActiveSeat, OneOwner, Notify;
      OrganizationInvariant.NoActiveSeat(s, actor);
      FoundIndexes(s, org, actor, now);
      hide Inv, HasOrg;
      WriteOrganization(org, Organization(name, true));
      WriteSeat(Seat(org, actor), Membership(Owner, true, now));
      AppendInvalidation(OrgDraft(actor, org, false, now));
    }

    method JoinOrganization(token: Id, actor: Id, now: Time) returns (fault: Option<Fault>)
      requires Valid() && !HasOrg(Snapshot(), actor)
      modifies this
      ensures var tx := JoinByToken(old(Snapshot()), actor, token, now);
              Snapshot() == tx.After(old(Snapshot())) && fault == FaultOf(tx)
    {
      var s := Snapshot();
      hide Snapshot, OneActiveSeat, OneOwner, Notify, Open, ActiveOrg;
      var i := FindInvitation(token);
      if i.None? || !Open(s.invitations[i.value], now) || !ActiveOrg(s.orgs, s.invitations[i.value].org) {
        return Some(InvitationInvalid);
      }
      var inv := s.invitations[i.value];
      OrganizationInvariant.NoActiveSeat(s, actor);
      InvitedIndexes(s, i.value, actor, now);
      hide Inv, HasOrg;
      WriteSeat(Seat(inv.org, actor), Membership(inv.role, true, now));
      WriteInvitation(i.value, inv.(acceptedBy := Some(actor), acceptedAt := Some(now)));
      AppendInvalidation(OrgDraft(actor, inv.org, false, now));
      return None;
    }

    /** The old owner steps down first: the other order would break the owner index. */
    method TransferOrganization(org: Id, actor: Id, target: Id, now: Time)
      requires Valid() && IsOwner(Snapshot().seats, org, actor) && ActiveSeat(Snapshot().seats, org, target)
            && actor != target
      modifies this
      ensures Snapshot() == Notify(Notify(Handover(old(Snapshot()), org, actor, target, now),
                OrgDraft(target, org, false, now)), OrgDraft(actor, org, false, now))
    {
      var s := Snapshot();
      hide Snapshot, OneActiveSeat, OneOwner, Notify;
      DemotedIndexes(s, org, actor, target, now);
      hide Inv;
      WriteSeat(Seat(org, actor), s.seats[Seat(org, actor)].(role := Admin, updatedAt := now));
      WriteSeat(Seat(org, target), s.seats[Seat(org, target)].(role := Owner, updatedAt := now));
      AppendInvalidation(OrgDraft(target, org, false, now));
      AppendInvalidation(OrgDraft(actor, org, false, now));
    }

    method RenameOrganization(org: Id, name: string, now: Time) returns (ghost rows: seq<Id>)
      requires org in Snapshot().orgs
      modifies this
      ensures Lists(rows, Members(old(Snapshot()).seats, org))
      ensures var s := old(Snapshot());
              Snapshot() == s.(orgs := s.orgs[org := s.orgs[org].(name := name)],
                log := ForUsers(s.log, rows, OrgDraft(0, org, false, now)))
    {
      var s := Snapshot();
      hide Snapshot, ForUsers, Members, Lists;
      WriteOrganization(org, s.orgs[org].(name := name));
      var members := Select(Members(s.seats, org));
      AppendForUsers(members, OrgDraft(0, org, false, now));
      rows := members;
    }

    method DissolveOrganization(org: Id, now: Time) returns (ghost rows: seq<Id>)
      requires org in Snapshot().orgs
      modifies this
      ensures Lists(rows, Members(old(Snapshot()).seats, org))
      ensures var out := Evict(old(Snapshot()), org, rows, now);
              org in out.orgs && Snapshot() == out.(orgs := out.orgs[org := out.orgs[org].(active := false)])
    {
      var s := Snapshot();
      hide Snapshot, Members, Evict, Lists;
      var members := Select(Members(s.seats, org));
      EvictNobody(s, org, now);
      for i := 0 to |members|
        invariant Snapshot() == Evict(s, org, members[..i], now)
      {
        EvictMore(s, org, members[..i], members[i], now);
        assert members[..i + 1] == members[..i] + [members[i]];
        RevokeOrganizationMember(org, members[i], now);
      }
      assert members[..|members|] == members;
      EvictOrgs(s, org, members, now);
      WriteOrganization(org, s.orgs[org].(active := false));
      rows := members;
    }

    /** `create` and `join` need an actor without an organization. */
    method EnterOrganization(actor: Id, home: Option<Id>, command: Command, now: Time) returns (fault: Option<Fault>)
      requires Valid() && Working(Snapshot(), actor) && (command.Create? || command.Join?)
            && Admissible(Snapshot(), home, command)
      modifies this
      ensures var tx := Mutate(old(Snapshot()), actor, home, command, now);
              Snapshot() == tx.After(old(Snapshot())) && fault == FaultOf(tx)
    {
      var s := Snapshot();
      hide Snapshot, Inv, Working, HasOrg, Found, Notify, JoinByToken, MutateHome;
      if HasOrg(s, actor) {
        return Some(StateConflict);
      }
      if command.Create? {
        CreateOrganization(command.org, command.name, actor, now);
        return None;
      }
      fault := JoinOrganization(command.token, actor, now);
    }

    /** The commands of a member about the organization they are in. */
    method CommandHome(actor: Id, org: Id, command: Command, now: Time)
        returns (fault: Option<Fault>, ghost rows: seq<Id>)
      requires Valid() && InOrg(Snapshot(), org, actor) && !command.Create? && !command.Join?
      modifies this
      ensures fault.None? ==> Admissible(old(Snapshot()), Some(org), Listed(command, rows))
      ensures var tx := MutateHome(old(Snapshot()), actor, org, Listed(command, rows), now);
              Snapshot() == tx.After(old(Snapshot())) && fault == FaultOf(tx)
    {
      var s := Snapshot();
      hide Snapshot, Inv, Evict, Notify, Handover, HasAccess, ForUsers, Members, Lists;
      var role := s.seats[Seat(org, actor)].role;
      rows := [];
      match command {
        case Leave =>
          if role == Owner {
            return Some(LastOwner), rows;
          }
          RevokeOrganizationMember(org, actor, now);
        case Transfer(target) =>
          if role != Owner || target == actor || !ActiveSeat(s.seats, org, target) || !HasAccess(s, target) {
            return Some(StateConflict), rows;
          }
          TransferOrganization(org, actor, target, now);
        case Rename(name, _) =>
          if role == Member {
            return Some(StateConflict), rows;
          }
          rows := RenameOrganization(org, name, now);
        case Dissolve(_) =>
          if role != Owner {
            return Some(StateConflict), rows;
          }
          rows := DissolveOrganization(org, now);
      }
      return None, rows;
    }

    /** `MutateOrganization`: the checks every command shares, then the switch. */
    method MutateOrganization(actor: Id, home: Option<Id>, command: Command, now: Time)
        returns (fault: Option<Fault>, ghost rows: seq<Id>)
      requires Valid() && (command.Create? ==> command.org !in Snapshot().orgs)
      modifies this
      ensures fault.None? ==> Admissible(old(Snapshot()), home, Listed(command, rows))
      ensures var tx := Mutate(old(Snapshot()), actor, home, Listed(command, rows), now);
              Snapshot() == tx.After(old(Snapshot())) && fault == FaultOf(tx)
      ensures Valid()
    {
      var s := Snapshot();
      hide Inv, Working, HasOrg, MutateHome, JoinByToken, Found, Notify, Snapshot;
      rows := [];
      if !Working(s, actor) {
        fault := Some(StateConflict);
      } else if command.Create? || command.Join? {
        fault := EnterOrganization(actor, home, command, now);
      } else if home.None? || !InOrg(s, home.value, actor) {
        fault := Some(StateConflict);
      } else {
        fault, rows := CommandHome(actor, home.value, command, now);
      }
      if fault.None? {
        OrganizationInvariant.MutateKeeps(s, actor, home, Listed(command, rows), now);
      }
    }

    // ---- accounts ---------------------------------------------------------------------------

    method CreateOwner(account: NewAccount, org: Id, name: string, now: Time) returns (fault: Option<Fault>)
      requires Valid()
      modifies this
      ensures var tx := Accounts.CreateOwner(old(Snapshot()), account, org, name, now);
              Snapshot() == tx.After(old(Snapshot())) && fault == FaultOf(tx)
      ensures Valid()
    {
      var s := Snapshot();
      hide Snapshot, Inv, SetupRequired, AddAccount, OneActiveSeat, OneOwner;
      CreateOwnerKeeps(s, account, org, name, now);
      if !AccountAllowed(account) {
        return Some(RequestInvalid);
      }
      if !SetupRequired(s) {
        return Some(AlreadySetup);
      }
      BlankWhenRequired(s);
      FirstSeat(Seat(org, account.user), Membership(Owner, true, now));
      WriteDeployment(Deployment(true));
      WriteOrganization(org, Organization(name, true));
      InsertAccount(account, Owner, false, now);
      AccountSeats(s.(deployment := Some(Deployment(true)), orgs := s.orgs[org := Organization(name, true)]), account,
        Owner, false, now);
      WriteSeat(Seat(org, account.user), Membership(Owner, true, now));
      WritePlan(FREE, Plan("Free", true, Some(200000), "默认免费额度", 10, now));
      WritePlan(ADMIN_PLAN, Plan("Admin", true, None, "无限额度管理套餐", 90, now));
      return None;
    }

    method RegisterAccount(account: NewAccount, now: Time) returns (fault: Option<Fault>)
      requires Valid() && account.user !in Snapshot().users
      modifies this
      ensures var tx := Accounts.RegisterAccount(old(Snapshot()), account, now);
              Snapshot() == tx.After(old(Snapshot())) && fault == FaultOf(tx)
      ensures Valid()
    {
      var s := Snapshot();
      hide Snapshot, Inv, AddAccount, UsernameTaken;
      RegisterKeeps(s, account, now);
      if !AccountAllowed(account) {
        return Some(RequestInvalid);
      }
      if s.deployment.None? || !s.deployment.value.active {
        return Some(NotFound);
      }
      if UsernameTaken(s, account.username) {
        return Some(UsernameConflict);
      }
      InsertAccount(account, Member, false, now);
      return None;
    }

    method CreateDeploymentMember(actor: Id, account: NewAccount, role: Role, now: Time) returns (fault: Option<Fault>)
      requires Valid() && account.user !in Snapshot().users
      modifies this
      ensures var tx := Accounts.CreateDeploymentMember(old(Snapshot()), actor, account, role, now);
              Snapshot() == tx.After(old(Snapshot())) && fault == FaultOf(tx)
      ensures Valid()
    {
      var s := Snapshot();
      hide Snapshot, Inv, AddAccount, UsernameTaken, Administers;
      CreateMemberKeeps(s, actor, account, role, now);
      if !AccountAllowed(account) {
        return Some(RequestInvalid);
      }
      if !Administers(s, actor, role) {
        return Some(StateConflict);
      }
      if UsernameTaken(s, account.username) {
        return Some(UsernameConflict);
      }
      InsertAccount(account, role, false, now);
      return None;
    }

    method UpdateAvatar(user: Id, avatar: string, now: Time) returns (fault: Option<Fault>)
      requires Valid()
      modifies this
      ensures var tx := Accounts.UpdateAvatar(old(Snapshot()), user, avatar, now);
              Snapshot() == tx.After(old(Snapshot())) && fault == FaultOf(tx)
      ensures Valid()
    {
      var s := Snapshot();
      hide Snapshot, Inv;
      UpdateAvatarKeeps(s, user, avatar, now);
      if user !in s.users || !s.users[user].active {
        return Some(NotFound);
      }
      WriteUser(user, s.users[user].(avatar := avatar, updatedAt := now));
      if user in s.access && s.access[user].active {
        AppendInvalidation(ProfileDraft(user, now));
      }
      return None;
    }

    /** An event if the condition holds. */
    method AppendWhen(told: bool, body: Draft)
      modifies this
      ensures Snapshot() == Told(old(Snapshot()), told, body)
    {
      if told {
        AppendInvalidation(body);
      }
    }

    /** The access row first; the profile event then asks whether access is left. */
    method ApplyAccess(user: Id, next: Change, now: Time)
      requires user in Snapshot().users && user in Snapshot().access
      modifies this
      ensures Snapshot() == ChangeAccess(old(Snapshot()), user, next, now)
    {
      var s := Snapshot();
      hide Snapshot, ChangeAccess, RenamedUsers, RevokeSessionsOf;
      AccessStatements(s, user, next, now);
      WriteAccess(user, Access(next.role, next.active, s.access[user].webDisabled, now));
      RenameUser(user, next.name, now);
      AppendWhen(next.name != s.users[user].displayName && next.active, ProfileDraft(user, now));
      if !next.active {
        RevokeSessions(user);
      }
      AppendWhen(s.access[user].role != next.role || s.access[user].active != next.active, PrincipalDraft(user, now));
    }

    method UpdateDeploymentMember(user: Id, actor: Id, expected: Expected, next: Change, now: Time)
        returns (fault: Option<Fault>)
      requires Valid()
      modifies this
      ensures var tx := Accounts.UpdateDeploymentMember(old(Snapshot()), user, actor, expected, next, now);
              Snapshot() == tx.After(old(Snapshot())) && fault == FaultOf(tx)
      ensures Valid()
    {
      var s := Snapshot();
      hide Snapshot, Inv, Administers, ChangeAccess;
      UpdateAccessKeeps(s, user, actor, expected, next, now);
      if user !in s.users || user !in s.access {
        return Some(NotFound);
      }
      if !RenameAllowed(s.users[user].displayName, next.name) {
        return Some(RequestInvalid);
      }
      if expected != AccessVersion(s, user) {
        return Some(StateConflict);
      }
      if !Administers(s, actor, s.access[user].role) || !Administers(s, actor, next.role) {
        return Some(StateConflict);
      }
      if actor == user && !next.active {
        return Some(StateConflict);
      }
      ApplyAccess(user, next, now);
      return None;
    }

    method ApplySeat(org: Id, user: Id, next: Change, now: Time)
      requires Valid() && user in Snapshot().users && user in Snapshot().access
            && ActiveSeat(Snapshot().seats, org, user) && next.role != Owner
      modifies this
      ensures Snapshot() == ChangeSeat(old(Snapshot()), org, user, next, now)
    {
      var s := Snapshot();
      hide Snapshot, Inv, ChangeSeat, RenamedUsers, Evict, OneActiveSeat, OneOwner;
      RewrittenIndexes(s, org, user, next, now);
      if next.active {
        SeatKept(s, org, user, next, now);
      } else {
        SeatGone(s, org, user, next, now);
      }
      WriteSeat(Seat(org, user), Membership(next.role, next.active, now));
      RenameUser(user, next.name, now);
      AppendWhen(next.name != s.users[user].displayName && s.access[user].active, ProfileDraft(user, now));
      if !next.active {
        RevokeOrganizationMember(org, user, now);
      } else {
        AppendWhen(s.seats[Seat(org, user)].role != next.role, OrgDraft(user, org, false, now));
      }
    }

    method UpdateMember(org: Id, user: Id, actor: Id, expected: Expected, next: Change, now: Time)
        returns (fault: Option<Fault>)
      requires Valid()
      modifies this
      ensures var tx := Organizations.UpdateMember(old(Snapshot()), org, user, actor, expected, next, now);
              Snapshot() == tx.After(old(Snapshot())) && fault == FaultOf(tx)
      ensures Valid()
    {
      var s := Snapshot();
      hide Snapshot, Inv, Working, InOrg, ChangeSeat;
      UpdateMemberKeeps(s, org, user, actor, expected, next, now);
      if user !in s.users || user !in s.access || Seat(org, user) !in s.seats {
        return Some(NotFound);
      }
      if !RenameAllowed(s.users[user].displayName, next.name) {
        return Some(RequestInvalid);
      }
      if expected != SeatVersion(s, org, user) || !expected.active {
        return Some(StateConflict);
      }
      if !Manages(s, org, actor, expected.role) || !Manages(s, org, actor, next.role) {
        return Some(StateConflict);
      }
      if actor == user && !next.active {
        return Some(StateConflict);
      }
      ApplySeat(org, user, next, now);
      return None;
    }

    // ---- invitations ------------------------------------------------------------------------

    method CreateInvitation(id: Id, org: Id, token: Id, role: Role, creator: Id, expires: Time)
        returns (fault: Option<Fault>)
      requires Valid() && id !in Snapshot().issuedInvitations
      modifies this
      ensures var tx := Invitations.CreateInvitation(old(Snapshot()), id, org, token, role, creator, expires);
              Snapshot() == tx.After(old(Snapshot())) && fault == FaultOf(tx)
      ensures Valid()
    {
      var s := Snapshot();
      hide Snapshot, Inv, Manages;
      CreateInvitationKeeps(s, id, org, token, role, creator, expires);
      if !Manages(s, org, creator, role) {
        return Some(StateConflict);
      }
      if exists i <- s.invitations.Keys :: s.invitations[i].token == token {
        return Some(Constraint);
      }
      WriteInvitation(id, Invitation(org, token, role, creator, expires, None, None, None));
      IssueInvitation(id);
      return None;
    }

    method RevokeInvitation(org: Id, id: Id, actor: Id, now: Time) returns (fault: Option<Fault>)
      requires Valid()
      modifies this
      ensures var tx := Invitations.RevokeInvitation(old(Snapshot()), org, id, actor, now);
              Snapshot() == tx.After(old(Snapshot())) && fault == FaultOf(tx)
      ensures Valid()
    {
      var s := Snapshot();
      hide Snapshot, Inv, Manages, Open;
      RevokeInvitationKeeps(s, org, id, actor, now);
      var guard := Invitations.InvitationGuard(s, org, id, actor);
      if guard.Some? {
        return guard;
      }
      if !Open(s.invitations[id], now) {
        return Some(InvitationInvalid);
      }
      WriteInvitation(id, s.invitations[id].(revokedAt := Some(now)));
      return None;
    }

    method DeleteInvitation(org: Id, id: Id, actor: Id, now: Time) returns (fault: Option<Fault>)
      requires Valid()
      modifies this
      ensures var tx := Invitations.DeleteInvitation(old(Snapshot()), org, id, actor, now);
              Snapshot() == tx.After(old(Snapshot())) && fault == FaultOf(tx)
      ensures Valid()
    {
      var s := Snapshot();
      hide Snapshot, Inv, Manages, Invitations.Terminal;
      DeleteInvitationKeeps(s, org, id, actor, now);
      var guard := Invitations.InvitationGuard(s, org, id, actor);
      if guard.Some? {
        return guard;
      }
      if !Invitations.Terminal(s.invitations[id], now) {
        return Some(InvitationInvalid);
      }
      DeleteInvitationRow(id);
      return None;
    }

    method AcceptInvitation(token: Id, account: NewAccount, now: Time) returns (fault: Option<Fault>)
      requires Valid() && account.user !in Snapshot().users
      modifies this
      ensures var tx := Invitations.AcceptInvitation(old(Snapshot()), token, account, now);
              Snapshot() == tx.After(old(Snapshot())) && fault == FaultOf(tx)
      ensures Valid()
    {
      var s := Snapshot();
      hide Snapshot, ActiveOrg, Open, UsernameTaken, AddAccount, OneActiveSeat, OneOwner;
      AcceptInvitationKeeps(s, token, account, now);
      var i := FindInvitation(token);
      if i.None? || s.deployment.None? || !s.deployment.value.active
         || !ActiveOrg(s.orgs, s.invitations[i.value].org) || !Open(s.invitations[i.value], now) {
        return Some(InvitationInvalid);
      }
      if !AccountAllowed(account) {
        return Some(RequestInvalid);
      }
      if UsernameTaken(s, account.username) {
        return Some(UsernameConflict);
      }
      var inv := s.invitations[i.value];
      AccountKeys(s, account.user);
      InvitedIndexes(s, i.value, account.user, now);
      AccountSeats(s, account, Member, true, now);
      AccountInvitations(s, account, Member, true, now);
      hide Inv;
      InsertAccount(account, Member, true, now);
      WriteSeat(Seat(inv.org, account.user), Membership(inv.role, true, now));
      WriteInvitation(i.value, inv.(acceptedBy := Some(account.user), acceptedAt := Some(now)));
      return None;
    }

    // ---- sessions and passwords -----------------------------------------------------------

    /** The purge is rolled back with the rest when the insert fails. */
    method CreateSession(id: Id, user: Id, token: Id, expires: Time, now: Time) returns (fault: Option<Fault>)
      requires Valid() && id !in Snapshot().issuedSessions
      modifies this
      ensures var tx := Sessions.CreateSession(old(Snapshot()), id, user, token, expires, now);
              Snapshot() == tx.After(old(Snapshot())) && fault == FaultOf(tx)
      ensures Valid()
    {
      var s := Snapshot();
      hide Snapshot, Inv, Sessions.Purge;
      CreateSessionKeeps(s, id, user, token, expires, now);
      PurgeUndone(s, now);
      DeleteSessions(now);
      var kept := Snapshot();
      if user !in kept.access || user !in kept.users
         || exists k <- kept.sessions.Keys :: kept.sessions[k].token == token {
        RollbackSessions(s);
        return Some(Constraint);
      }
      WriteSession(id, Session(user, token, expires, false));
      WriteUser(user, kept.users[user].(updatedAt := now));
      IssueSession(id);
      return None;
    }

    /** Lookup through the unique token index. */
    method FindSession(token: Id) returns (k: Option<Id>)
      requires Valid()
      ensures k == SessionByToken(Snapshot().sessions, token)
    {
      ghost var s := Snapshot();
      hide Inv;
      var left := sessions.Keys;
      while left != {}
        invariant left <= sessions.Keys && Snapshot() == s
        invariant forall x :: x in sessions && x !in left ==> sessions[x].token != token
        decreases |left|
      {
        var x :| x in left;
        if sessions[x].token == token {
          OneSession(s, x);
          return Some(x);
        }
        left := left - {x};
      }
      return None;
    }

    method RevokeSession(token: Id, now: Time) returns (revoked: Option<Id>)
      requires Valid()
      modifies this
      ensures Snapshot() == Sessions.RevokeSession(old(Snapshot()), token, now).After(old(Snapshot()))
      ensures revoked.Some? <==> Snapshot() != old(Snapshot())
      ensures revoked.Some? ==>
                && revoked == SessionByToken(old(Snapshot()).sessions, token)
                && !old(Snapshot()).sessions[revoked.value].revoked
      ensures Valid()
    {
      var s := Snapshot();
      hide Snapshot, Inv;
      RevokeSessionKeeps(s, token, now);
      var k := FindSession(token);
      if k.None? || s.sessions[k.value].revoked {
        return None;
      }
      WriteSession(k.value, s.sessions[k.value].(revoked := true));
      AppendInvalidation(Draft(s.sessions[k.value].user, SessionRef(k.value), SessionRevoked, None, false, now));
      return k;
    }

    /** `revokeUserNodes`: revoke, then one event per returned row. */
    method RevokeUserNodes(user: Id, now: Time) returns (ghost rows: seq<Id>)
      modifies this
      ensures Lists(rows, LiveNodesOf(old(Snapshot()).nodes, user))
      ensures var s := old(Snapshot());
              Snapshot() == s.(nodes := Sessions.RevokeNodesOf(s.nodes, user),
                log := ForNodes(s.log, rows, Sessions.NodeDraft(user, 0, now)))
    {
      var s := Snapshot();
      hide Snapshot, Lists, LiveNodesOf, Sessions.RevokeNodesOf;
      var live := Select(LiveNodesOf(s.nodes, user));
      RevokeNodeRows(user);
      for i := 0 to |live|
        invariant Snapshot() == s.(nodes := Sessions.RevokeNodesOf(s.nodes, user),
                  log := ForNodes(s.log, live[..i], Sessions.NodeDraft(user, 0, now)))
      {
        MoreNodeRows(s.log, live[..i], live[i], Sessions.NodeDraft(user, 0, now));
        assert live[..i + 1] == live[..i] + [live[i]];
        AppendInvalidation(Sessions.NodeDraft(user, live[i], now));
      }
      assert live[..|live|] == live;
      rows := live;
    }

    method RevokeNodeRows(user: Id)
      modifies this
      ensures Snapshot() == old(Snapshot()).(nodes := Sessions.RevokeNodesOf(old(Snapshot()).nodes, user))
    {
      nodes := map n <- nodes :: if nodes[n].owner == user then nodes[n].(revoked := true) else nodes[n];
      assert nodes == Sessions.RevokeNodesOf(old(nodes), user);
    }

    /** Claim the request, swap the credential if it is still the verified one, revoke the
        devices; a failed swap rolls the claim back. */
    method TryCommitPasswordChange(key: Request, current: Hash, next: Hash, now: Time)
        returns (fault: Option<Fault>, ghost rows: seq<Id>)
      requires Valid()
      modifies this
      ensures fault.None? ==> Lists(rows, LiveNodesOf(old(Snapshot()).nodes, key.user))
      ensures var tx := Sessions.TryCommitPassword(old(Snapshot()), key, current, next, rows, now);
              Snapshot() == tx.After(old(Snapshot())) && fault == FaultOf(tx)
      ensures Valid()
    {
      var s := Snapshot();
      rows := [];
      hide Snapshot, Inv, Lists, LiveNodesOf, Sessions.Swapped;
      if key in s.receipts {
        return Some(ReceiptExists), rows;
      }
      if key.user !in s.users {
        return Some(Constraint), rows;
      }
      WriteReceipt(key, Committed);
      if key.user !in s.credentials || s.credentials[key.user] != current {
        RollbackReceipts(s);
        return Some(CredentialChanged), rows;
      }
      rows := SwapCredential(s, key, next, now);
      TryPasswordKeeps(s, key, current, next, rows, now);
      return None, rows;
    }

    /** The rest of a claimed change: the credential, the devices, the events. */
    method SwapCredential(s: State, key: Request, next: Hash, now: Time) returns (ghost rows: seq<Id>)
      requires Snapshot() == s.(receipts := s.receipts[key := Committed])
      modifies this
      ensures Lists(rows, LiveNodesOf(s.nodes, key.user))
      ensures Snapshot() == Sessions.Swapped(s, key, next, rows, now)
    {
      hide Snapshot, Lists, LiveNodesOf, Sessions.RevokeNodesOf, ForNodes;
      WriteCredential(key.user, next);
      rows := RevokeUserNodes(key.user, now);
    }

    method SettlePasswordChange(key: Request) returns (fault: Option<Fault>)
      requires Valid()
      modifies this
      ensures var tx := Sessions.SettlePassword(old(Snapshot()), key);
              Snapshot() == tx.After(old(Snapshot())) && fault == FaultOf(tx)
      ensures Valid()
    {
      var s := Snapshot();
      hide Snapshot, Inv;
      SettleKeeps(s, key);
      if key in s.receipts {
        return None;
      }
      if key.user !in s.users {
        return Some(Constraint);
      }
      WriteReceipt(key, NotApplied);
      return None;
    }

    // ---- devices --------------------------------------------------------------------------

    method UpsertOwnedAgent(id: Id, org: Option<Id>, owner: Id, source: Id, name: string, avatar: string)
        returns (fault: Option<Fault>)
      requires Valid() && id !in Snapshot().agents
      modifies this
      ensures var tx := Devices.UpsertAgent(old(Snapshot()), id, org, owner, source, name, avatar);
              Snapshot() == tx.After(old(Snapshot())) && fault == FaultOf(tx)
      ensures Valid()
    {
      var s := Snapshot();
      hide Snapshot, Inv, Standing, Devices.PutAgent;
      UpsertAgentKeeps(s, id, org, owner, source, name, avatar);
      if s.deployment.None? || org.None? || !Standing(s, org.value, owner) {
        return Some(NotFound);
      }
      WriteAgent(id, Agent(org.value, owner, source, name, avatar, true));
      return None;
    }

    /** The insert gives way to any row with this id or this credential; the stored row then decides. */
    method RegisterNode(owner: Id, org: Option<Id>, session: Id, r: Devices.Registration, now: Time)
        returns (fault: Option<Fault>, stored: Option<Node>)
      requires Valid()
      modifies this
      ensures var tx := Devices.RegisterNode(old(Snapshot()), owner, org, session, r, now);
              Snapshot() == tx.After(old(Snapshot())) && fault == FaultOf(tx)
      ensures fault.None? ==> r.node in Snapshot().nodes && stored == Some(Snapshot().nodes[r.node])
      ensures Valid()
    {
      var s := Snapshot();
      hide Snapshot, Inv, LiveSession, LiveAgent, Devices.Canonical;
      RegisterNodeKeeps(s, owner, org, session, r, now);
      if r.agents == [] || |r.agents| > MAX_NODE_AGENTS {
        return Some(RequestInvalid), None;
      }
      var agentIds := Canonicalise(r.agents);
      if !LiveSession(s, session, owner, now) {
        return Some(NotFound), None;
      }
      var all := org.Some? && AllLive(s, agentIds, org.value, owner);
      SameAgents(s, r.agents, org, owner);
      if !all {
        return Some(NotFound), None;
      }
      var node := Node(org.value, owner, session, Digest(r.digest), r.name, agentIds, now, false);
      if r.node !in s.nodes && !Devices.CredentialTaken(s.nodes, node.credential) {
        WriteNode(r.node, node);
        return None, Some(node);
      }
      if r.node !in s.nodes || !Devices.SameNode(s.nodes[r.node], node) {
        return Some(StateConflict), None;
      }
      return None, Some(s.nodes[r.node]);
    }

    /** A tombstone if the device is unknown, then the owner's row decides. */
    method RevokeNode(owner: Id, org: Option<Id>, session: Id, node: Id, now: Time) returns (fault: Option<Fault>)
      requires Valid()
      modifies this
      ensures var tx := Devices.RevokeNode(old(Snapshot()), owner, org, session, node, now);
              Snapshot() == tx.After(old(Snapshot())) && fault == FaultOf(tx)
      ensures Valid()
    {
      var s := Snapshot();
      hide Snapshot, Inv, LiveSession;
      RevokeNodeKeeps(s, owner, org, session, node, now);
      if node !in s.nodes {
        if !LiveSession(s, session, owner, now) {
          return Some(NotFound);
        }
        if org.None? || org.value !in s.orgs {
          return Some(Constraint);
        }
        WriteNode(node, Devices.TombstoneNode(owner, org.value, session, node, now));
        return None;
      }
      if org != Some(s.nodes[node].org) || owner != s.nodes[node].owner {
        return Some(NotFound);
      }
      if s.nodes[node].revoked {
        return None;
      }
      WriteNode(node, s.nodes[node].(revoked := true));
      AppendInvalidation(Sessions.NodeDraft(owner, node, now));
      return None;
    }

    // ---- plans ------------------------------------------------------------------------------

    method UpsertSubscriptionPlan(key: string, plan: Plan, now: Time)
        returns (fault: Option<Fault>, ghost rows: seq<Id>)
      requires Valid()
      modifies this
      ensures fault.None? ==> Lists(rows, EntitledUsers(old(Snapshot()), key))
      ensures var tx := UpsertPlan(old(Snapshot()), key, plan, rows, now);
              Snapshot() == tx.After(old(Snapshot())) && fault == FaultOf(tx)
      ensures Valid()
    {
      var s := Snapshot();
      rows := [];
      hide Snapshot, Inv, PlanAllowed, EntitledUsers, ForUsers, Lists;
      if !PlanAllowed(key, plan) {
        return Some(RequestInvalid), rows;
      }
      if s.deployment.None? {
        return Some(NotFound), rows;
      }
      WritePlan(key, plan.(updatedAt := now));
      var affected := Select(EntitledUsers(s, key));
      AppendForUsers(affected, PlanDraft(0, now));
      rows := affected;
      UpsertPlanKeeps(s, key, plan, rows, now);
      return None, rows;
    }

    method SetMemberEntitlement(user: Id, key: string, now: Time) returns (fault: Option<Fault>)
      requires Valid()
      modifies this
      ensures var tx := SetGrant(old(Snapshot()), user, key, now);
              Snapshot() == tx.After(old(Snapshot())) && fault == FaultOf(tx)
      ensures Valid()
    {
      var s := Snapshot();
      hide Snapshot, Inv, PlanKey;
      SetGrantKeeps(s, user, key, now);
      if s.deployment.None? {
        return Some(NotFound);
      }
      if key !in s.plans || !s.plans[key].active {
        return Some(PlanNotFound);
      }
      if user !in s.access {
        return Some(NotFound);
      }
      if PlanKey(s, user) == key {
        return None;
      }
      WriteGrant(user, Grant(key, now));
      AppendInvalidation(PlanDraft(user, now));
      return None;
    }

    method WritePlans(rows: seq<PlanRow>)
      modifies this
      ensures Snapshot() == old(Snapshot()).(plans := Put(old(Snapshot()).plans, rows))
    {
      var s := Snapshot();
      hide Snapshot;
      for i := 0 to |rows|
        invariant Snapshot() == s.(plans := Put(s.plans, rows[..i]))
      {
        assert rows[..i + 1][..i] == rows[..i];
        WritePlan(rows[i].key, rows[i].value);
      }
      assert rows[..|rows|] == rows;
    }

    /** The grant loop; it stops at the first row without access or without its plan. */
    method WriteGrants(rows: seq<GrantRow>) returns (fault: Option<Fault>)
      modifies this
      ensures fault == GrantFault(old(Snapshot()), old(Snapshot()).plans, rows)
      ensures exists grants' :: Snapshot() == old(Snapshot()).(grants := grants')
      ensures fault.None? ==> Snapshot() == old(Snapshot()).(grants := Put(old(Snapshot()).grants, rows))
    {
      var s := Snapshot();
      hide Snapshot;
      for i := 0 to |rows|
        invariant GrantFault(s, s.plans, rows[..i]).None?
        invariant Snapshot() == s.(grants := Put(s.grants, rows[..i]))
      {
        assert rows[..i + 1][..i] == rows[..i];
        if rows[i].key !in s.access || rows[i].value.plan !in s.plans {
          FirstFault(s, s.plans, rows, i + 1);
          return GrantFault(s, s.plans, rows[..i + 1]);
        }
        WriteGrant(rows[i].key, rows[i].value);
      }
      assert rows[..|rows|] == rows;
      return None;
    }

    /** Plans, then grants, then one event per active user; a bad row rolls everything back. */
    method ImportSubscriptions(plans': seq<PlanRow>, grants': seq<GrantRow>, now: Time)
        returns (fault: Option<Fault>, ghost rows: seq<Id>)
      requires Valid()
      modifies this
      ensures fault.None? ==> Lists(rows, ActiveUsers(old(Snapshot())))
      ensures var tx := Entitlements.ImportSubscriptions(old(Snapshot()), plans', grants', rows, now);
              Snapshot() == tx.After(old(Snapshot())) && fault == FaultOf(tx)
      ensures Valid()
    {
      var s := Snapshot();
      rows := [];
      hide Snapshot, Inv, PlanAllowed, GrantFault, Put, ForUsers, ActiveUsers, Lists;
      if plans' == [] || exists p <- plans' :: !PlanAllowed(p.key, p.value) {
        return Some(RequestInvalid), rows;
      }
      if s.deployment.None? || !s.deployment.value.active {
        return Some(NotFound), rows;
      }
      WritePlans(plans');
      SameGrantFault(s, s.(plans := Put(s.plans, plans')), Put(s.plans, plans'), grants');
      fault := WriteGrants(grants');
      if fault.Some? {
        RollbackBilling(s);
        return fault, rows;
      }
      var active := Select(ActiveUsers(s));
      AppendForUsers(active, PlanDraft(0, now));
      rows := active;
      SubscriptionsKeep(s, plans', grants', rows, now);
    }

    // ---- reading ------------------------------------------------------------------------------

    /** The cursor and the limit are normalised, then the log is read behind the cursor. */
    method ListIdentityInvalidations(after: int, limit: int) returns (events: seq<Event>)
      requires Valid()
      ensures IsPage(log, Cursor(after), Batch(limit), events)
    {
      var from := if after < 0 then 0 else after;
      var most := limit;
      if most <= 0 || most > MAX_BATCH {
        most := MAX_BATCH;
      }
      Coherence.SeatsOf(Snapshot());
      hide Inv, Ordered, IsPage;
      events := [];
      EmptyOrdered();
      for i := 0 to |log|
        invariant Ordered(events) && |events| <= most
        invariant Behind(log, i, from, events)
      {
        if from < log[i].id && |events| == most {
          PageFull(log, i, from, most, events);
          return events;
        }
        NextEvent(log, i, from, events);
        if from < log[i].id {
          events := events + [log[i]];
        }
      }
      PageShort(log, from, most, events);
    }

    /** `VerifyOwnedAgents`: duplicates are dropped, and one missing agent refuses all. */
    method VerifyOwnedAgents(org: Id, owner: Id, ids: seq<Id>) returns (found: seq<Agent>, ok: bool)
      ensures ok <==> 0 < |ids| <= MAX_VERIFIED_AGENTS && AllLive(Snapshot(), ids, org, owner)
      ensures ok ==>
                && |found| == |UserSet(ids)|
                && forall a <- ids :: a in Snapshot().agents && Snapshot().agents[a] in found
    {
      found, ok := [], false;
      if |ids| == 0 || |ids| > MAX_VERIFIED_AGENTS {
        return;
      }
      hide LiveAgent;
      var normalized := Compact(ids);
      for i := 0 to |normalized|
        invariant |found| == i
        invariant forall k :: 0 <= k < i ==> LiveAgent(Snapshot(), normalized[k], org, owner)
        invariant forall k :: 0 <= k < i ==>
                    normalized[k] in Snapshot().agents && found[k] == Snapshot().agents[normalized[k]]
      {
        if !LiveAgent(Snapshot(), normalized[i], org, owner) {
          assert normalized[i] in ids;
          return found, false;
        }
        LiveRow(Snapshot(), normalized[i], org, owner);
        found := found + [Snapshot().agents[normalized[i]]];
      }
      ok := true;
    }

    /** The unrevoked device with this credential. */
    method NodeByCredential(digest: Id) returns (n: Option<Id>)
      ensures n.Some? ==>
                && n.value in Snapshot().nodes
                && Snapshot().nodes[n.value].credential == Digest(digest) && !Snapshot().nodes[n.value].revoked
      ensures n.None? ==> forall m :: m in Snapshot().nodes && Snapshot().nodes[m].credential == Digest(digest) ==>
                Snapshot().nodes[m].revoked
    {
      var left := nodes.Keys;
      while left != {}
        invariant left <= nodes.Keys
        invariant forall m :: m in nodes && m !in left && nodes[m].credential == Digest(digest) ==> nodes[m].revoked
        decreases |left|
      {
        var m :| m in left;
        if nodes[m].credential == Digest(digest) && !nodes[m].revoked {
          return Some(m);
        }
        left := left - {m};
      }
      return None;
    }

    /**
     `ExchangeNodeToken`: credential, owner, organization and agents are checked one after
     the other, as the code does. In a sound state the first two decide, and the scope of the token
     is the registered one.
     */
    method ExchangeNodeToken(digest: Id) returns (out: Exchange)
      requires Valid()
      ensures out.Token? <==> exists n :: Carries(Snapshot(), n, digest) && Machines.ExchangeAdmits(Snapshot(), n)
      ensures out.Token? <==> exists n :: Carries(Snapshot(), n, digest) && Machines.Granted(Snapshot(), n)
      ensures out.Token? ==> Carries(Snapshot(), out.node, digest) && Names(out, Snapshot().nodes[out.node])
      ensures !out.Forbidden? && !out.Invalid?
    {
      var s := Snapshot();
      hide Inv, Machines.ExchangeAdmits, Machines.Granted, LiveAgent, InOrg, Working;
      var n := NodeByCredential(digest);
      if n.None? {
        NoCarrier(s, digest);
        return Unauthenticated;
      }
      OneCarrier(s, n.value, digest);
      var node := s.nodes[n.value];
      if !OwnerResolves(s, node) {
        NotGranted(s, n.value);
        return Unauthenticated;
      }
      IsGranted(s, n.value);
      if !InOrg(s, node.org, node.owner) {
        return Forbidden;
      }
      var found, ok := VerifyOwnedAgents(node.org, node.owner, node.agents);
      if !ok {
        return if 0 < |node.agents| <= MAX_VERIFIED_AGENTS then Forbidden else Invalid;
      }
      return Token(n.value, node.owner, node.org, node.session, node.agents);
    }
  }

  lemma EvictOne(s: State, org: Id, user: Id, now: Time)
    ensures Evict(s, org, [user], now) == s.(
      seats := RevokeSeats(s.seats, org, {user}, now), agents := RevokeAgents(s.agents, org, {user}),
      nodes := RevokeNodes(s.nodes, org, {user}), log := Append(s.log, OrgDraft(user, org, true, now)))
  {
    assert UserSet([user]) == {user};
    OneRow(s.log, user, OrgDraft(0, org, true, now));
    hide RevokeSeats, RevokeAgents, RevokeNodes, Append, UserSet, ForUsers;
  }

  /** Evicting one more member at the end of the list. */
  lemma EvictMore(s: State, org: Id, rows: seq<Id>, user: Id, now: Time)
    ensures Evict(Evict(s, org, rows, now), org, [user], now) == Evict(s, org, rows + [user], now)
  {
    var mid := Evict(s, org, rows, now);
    EvictOne(mid, org, user, now);
    var all := rows + [user];
    assert all[..|rows|] == rows;
    assert UserSet(all) == UserSet(rows) + {user};
    MoreRows(s.log, rows, user, OrgDraft(0, org, true, now));
    MoreSeats(s.seats, org, UserSet(rows), user, now);
    MoreAgents(s.agents, org, UserSet(rows), user);
    MoreNodes(s.nodes, org, UserSet(rows), user);
    hide RevokeSeats, RevokeAgents, RevokeNodes, Append, UserSet, ForUsers;
  }

  lemma OneRow(log: seq<Event>, user: Id, template: Draft)
    ensures ForUsers(log, [user], template) == Append(log, template.(user := user))
  {
    assert [user][..0] == [];
    assert ForUsers(log, [], template) == log;
  }

  lemma MoreRows(log: seq<Event>, rows: seq<Id>, user: Id, template: Draft)
    ensures ForUsers(log, rows + [user], template) == Append(ForUsers(log, rows, template), template.(user := user))
  {
    assert (rows + [user])[..|rows|] == rows;
  }

  lemma MoreSeats(seats: map<Seat, Membership>, org: Id, users: set<Id>, user: Id, now: Time)
    ensures RevokeSeats(RevokeSeats(seats, org, users, now), org, {user}, now)
         == RevokeSeats(seats, org, users + {user}, now)
  {
  }

  lemma MoreAgents(agents: map<Id, Agent>, org: Id, users: set<Id>, user: Id)
    ensures RevokeAgents(RevokeAgents(agents, org, users), org, {user}) == RevokeAgents(agents, org, users + {user})
  {
  }

  lemma MoreNodes(nodes: map<Id, Node>, org: Id, users: set<Id>, user: Id)
    ensures RevokeNodes(RevokeNodes(nodes, org, users), org, {user}) == RevokeNodes(nodes, org, users + {user})
  {
  }

  lemma EvictNobody(s: State, org: Id, now: Time)
    ensures Evict(s, org, [], now) == s
  {
    assert UserSet([]) == {};
    NobodyLeaves(s.seats, s.agents, s.nodes, org, now);
    hide RevokeSeats, RevokeAgents, RevokeNodes;
  }

  lemma NobodyLeaves(seats: map<Seat, Membership>, agents: map<Id, Agent>, nodes: map<Id, Node>, org: Id, now: Time)
    ensures RevokeSeats(seats, org, {}, now) == seats && RevokeAgents(agents, org, {}) == agents
         && RevokeNodes(nodes, org, {}) == nodes
  {
  }

  lemma EvictOrgs(s: State, org: Id, rows: seq<Id>, now: Time)
    ensures Evict(s, org, rows, now).orgs == s.orgs
  {
  }

  lemma OneInvitation(s: State, i: Id)
    requires Inv(s) && i in s.invitations
    ensures InvitationByToken(s.invitations, s.invitations[i].token) == Some(i)
  {
    hide AccountsFit, SeatsFit, SessionsFit, AgentsFit, NodesFit, NodesBacked, PlansFit, ReceiptsFit, SetupFits,
      Ordered, InvitationFits;
  }

  lemma FoundIndexes(s: State, org: Id, user: Id, now: Time)
    requires Inv(s) && org !in s.orgs && forall o :: !ActiveSeat(s.seats, o, user)
    ensures var seats := s.seats[Seat(org, user) := Membership(Owner, true, now)];
            OneActiveSeat(seats) && OneOwner(seats)
  {
    hide AccountsFit, InvitationsFit, SessionsFit, AgentsFit, NodesFit, NodesBacked, PlansFit, ReceiptsFit, SetupFits,
      Ordered, HasOwner;
    assert forall u :: !ActiveSeat(s.seats, org, u);
    OrganizationInvariant.EnterSeats(s, org, user, Owner, now);
  }

  lemma InvitedIndexes(s: State, i: Id, user: Id, now: Time)
    requires Inv(s) && i in s.invitations && forall o :: !ActiveSeat(s.seats, o, user)
    ensures var inv := s.invitations[i];
            var seats := s.seats[Seat(inv.org, user) := Membership(inv.role, true, now)];
            OneActiveSeat(seats) && OneOwner(seats)
  {
    InvitationOf(s, i);
    hide AccountsFit, InvitationsFit, SessionsFit, AgentsFit, NodesFit, NodesBacked, PlansFit, ReceiptsFit, SetupFits,
      Ordered, HasOwner, OneActiveSeat, OneOwner;
    OrganizationInvariant.EnterSeats(s, s.invitations[i].org, user, s.invitations[i].role, now);
  }

  /** Stepping down empties the owner index, so the promotion fits; both keep the member index. */
  lemma DemotedIndexes(s: State, org: Id, owner: Id, target: Id, now: Time)
    requires Inv(s) && IsOwner(s.seats, org, owner) && ActiveSeat(s.seats, org, target) && owner != target
    ensures var down := s.seats[Seat(org, owner) := s.seats[Seat(org, owner)].(role := Admin, updatedAt := now)];
            var up := down[Seat(org, target) := s.seats[Seat(org, target)].(role := Owner, updatedAt := now)];
            OneActiveSeat(down) && OneOwner(down) && OneActiveSeat(up) && OneOwner(up)
  {
    hide AccountsFit, InvitationsFit, SessionsFit, AgentsFit, NodesFit, NodesBacked, PlansFit, ReceiptsFit, SetupFits,
      Ordered, HasOwner;
    var down := s.seats[Seat(org, owner) := s.seats[Seat(org, owner)].(role := Admin, updatedAt := now)];
    forall o, u
      ensures IsOwner(down, o, u) <==> IsOwner(s.seats, o, u) && o != org
      ensures ActiveSeat(down, o, u) <==> ActiveSeat(s.seats, o, u)
    {
      assert IsOwner(s.seats, org, u) ==> u == owner;
    }
    var up := down[Seat(org, target) := s.seats[Seat(org, target)].(role := Owner, updatedAt := now)];
    forall o, u
      ensures IsOwner(up, o, u) <==> if o == org then u == target else IsOwner(s.seats, o, u)
      ensures ActiveSeat(up, o, u) <==> ActiveSeat(s.seats, o, u)
    {
      assert !(o == org && u == target) ==> (IsOwner(up, o, u) <==> IsOwner(down, o, u));
    }
  }

  lemma FirstSeat(key: Seat, row: Membership)
    ensures OneActiveSeat(map[][key := row]) && OneOwner(map[][key := row])
  {
  }

  lemma AccountSeats(s: State, a: NewAccount, role: Role, webDisabled: bool, now: Time)
    ensures AddAccount(s, a, role, webDisabled, now).seats == s.seats
  {
  }

  lemma RewrittenIndexes(s: State, org: Id, user: Id, next: Change, now: Time)
    requires Inv(s) && ActiveSeat(s.seats, org, user) && next.role != Owner
    ensures var seats := s.seats[Seat(org, user) := Membership(next.role, next.active, now)];
            OneActiveSeat(seats) && OneOwner(seats)
  {
    hide AccountsFit, InvitationsFit, SessionsFit, AgentsFit, NodesFit, NodesBacked, PlansFit, ReceiptsFit, SetupFits,
      Ordered, HasOwner;
    var seats := s.seats[Seat(org, user) := Membership(next.role, next.active, now)];
    assert forall o, u :: IsOwner(seats, o, u) ==> IsOwner(s.seats, o, u);
    assert forall o, u :: ActiveSeat(seats, o, u) ==> ActiveSeat(s.seats, o, u);
  }

  /** The log of an access update, told in two steps. */
  lemma AccessLogSteps(log: seq<Event>, renamed: bool, user: Id, row: Access, next: Change, now: Time)
    ensures var named := if renamed && next.active then Append(log, ProfileDraft(user, now)) else log;
            AccessLog(log, renamed, user, row, next, now) ==
              if row.role != next.role || row.active != next.active then Append(named, PrincipalDraft(user, now))
              else named
  {
  }

  /** The statements of an access update, one after the other, are the closed form. */
  lemma AccessStatements(s: State, user: Id, next: Change, now: Time)
    requires user in s.users && user in s.access
    ensures var row := Access(next.role, next.active, s.access[user].webDisabled, now);
            var told := Told(Named(Admitted(s, user, row), user, next.name, now),
                next.name != s.users[user].displayName && next.active, ProfileDraft(user, now));
            ChangeAccess(s, user, next, now) ==
              Told(LoggedOut(told, user, !next.active),
                s.access[user].role != next.role || s.access[user].active != next.active, PrincipalDraft(user, now))
  {
    hide RenamedUsers, RevokeSessionsOf, Append, AccessLog;
    AccessLogSteps(s.log, next.name != s.users[user].displayName, user, s.access[user], next, now);
  }

  /** Seat, name and profile event of a member update. */
  function SeatNamed(s: State, org: Id, user: Id, next: Change, now: Time): State
    requires user in s.users && user in s.access
  {
    Told(Named(Seated(s, org, user, next, now), user, next.name, now),
      next.name != s.users[user].displayName && s.access[user].active, ProfileDraft(user, now))
  }

  /** The log after them. */
  function NamedLog(s: State, user: Id, next: Change, now: Time): seq<Event>
    requires user in s.users && user in s.access
  {
    if next.name != s.users[user].displayName && s.access[user].active then Append(s.log, ProfileDraft(user, now))
    else s.log
  }

  lemma SeatNamedIs(s: State, org: Id, user: Id, next: Change, now: Time)
    requires user in s.users && user in s.access
    ensures SeatNamed(s, org, user, next, now) == s.(
      seats := s.seats[Seat(org, user) := Membership(next.role, next.active, now)],
      users := RenamedUsers(s.users, user, next.name, now), log := NamedLog(s, user, next, now))
  {
    hide RenamedUsers, Append;
  }

  /** The statements of a member update that leaves the seat active. */
  lemma SeatKept(s: State, org: Id, user: Id, next: Change, now: Time)
    requires user in s.users && user in s.access && Seat(org, user) in s.seats && next.active
    ensures ChangeSeat(s, org, user, next, now) ==
              Told(SeatNamed(s, org, user, next, now), s.seats[Seat(org, user)].role != next.role,
                OrgDraft(user, org, false, now))
  {
    SeatNamedIs(s, org, user, next, now);
    hide RenamedUsers, Append, RevokeAgents, RevokeNodes, SeatNamed;
  }

  /** The statements of a member update that takes the seat away. */
  lemma SeatGone(s: State, org: Id, user: Id, next: Change, now: Time)
    requires user in s.users && user in s.access && Seat(org, user) in s.seats && !next.active
    ensures ChangeSeat(s, org, user, next, now) == Evict(SeatNamed(s, org, user, next, now), org, [user], now)
  {
    hide RenamedUsers, Evict, RevokeSeats, RevokeAgents, RevokeNodes, Append, SeatNamed;
    SeatNamedIs(s, org, user, next, now);
    EvictOne(SeatNamed(s, org, user, next, now), org, user, now);
    RevokedTwice(s.seats, org, user, next.role, now);
  }

  /** The row is already inactive when `revokeOrganizationMember` comes to it. */
  lemma RevokedTwice(seats: map<Seat, Membership>, org: Id, user: Id, role: Role, now: Time)
    ensures var written := seats[Seat(org, user) := Membership(role, false, now)];
            RevokeSeats(written, org, {user}, now) == written
  {
  }

  lemma AccountInvitations(s: State, a: NewAccount, role: Role, webDisabled: bool, now: Time)
    ensures AddAccount(s, a, role, webDisabled, now).invitations == s.invitations
  {
  }

  lemma PurgeUndone(s: State, now: Time)
    ensures Sessions.Purge(s, now).(sessions := s.sessions, nodes := s.nodes) == s
  {
  }

  lemma OneSession(s: State, k: Id)
    requires Inv(s) && k in s.sessions
    ensures SessionByToken(s.sessions, s.sessions[k].token) == Some(k)
  {
    hide AccountsFit, SeatsFit, InvitationsFit, AgentsFit, NodesFit, NodesBacked, PlansFit, ReceiptsFit,
      SetupFits, Ordered;
  }

  lemma MoreNodeRows(log: seq<Event>, rows: seq<Id>, node: Id, template: Draft)
    ensures ForNodes(log, rows + [node], template)
         == Append(ForNodes(log, rows, template), template.(target := NodeRef(node)))
  {
    assert (rows + [node])[..|rows|] == rows;
  }

  /** `slices.Sort` and `slices.Compact`, one element at a time. */
  method Canonicalise(ids: seq<Id>) returns (out: seq<Id>)
    ensures out == Devices.Canonical(ids)
  {
    out := [];
    for i := 0 to |ids|
      invariant out == Devices.Canonical(ids[..i])
    {
      assert ids[..i + 1][..i] == ids[..i];
      out := Devices.Insert(ids[i], out);
    }
    assert ids[..|ids|] == ids;
  }

  predicate AllLive(s: State, ids: seq<Id>, org: Id, owner: Id) {
    forall a <- ids :: LiveAgent(s, a, org, owner)
  }

  lemma SameAgents(s: State, ids: seq<Id>, org: Option<Id>, owner: Id)
    ensures org.Some? ==> (AllLive(s, Devices.Canonical(ids), org.value, owner)
              <==> !exists a <- ids :: !LiveAgent(s, a, org.value, owner))
  {
    hide LiveAgent;
    CanonicalMembers(ids);
  }

  lemma {:induction false} FirstFault(s: State, plans: map<string, Plan>, rows: seq<GrantRow>, n: nat)
    requires n <= |rows| && GrantFault(s, plans, rows[..n]).Some?
    ensures GrantFault(s, plans, rows) == GrantFault(s, plans, rows[..n])
    decreases |rows|
  {
    if n == |rows| {
      assert rows[..n] == rows;
    } else {
      assert rows[..|rows| - 1][..n] == rows[..n];
      FirstFault(s, plans, rows[..|rows| - 1], n);
    }
  }

  lemma {:induction false} SameGrantFault(s: State, t: State, plans: map<string, Plan>, rows: seq<GrantRow>)
    requires t.access == s.access
    ensures GrantFault(t, plans, rows) == GrantFault(s, plans, rows)
  {
    if rows != [] {
      SameGrantFault(s, t, plans, rows[..|rows| - 1]);
    }
  }

  /** `events` are the events of the first `i` rows behind the cursor. */
  predicate Behind(log: seq<Event>, i: nat, from: nat, events: seq<Event>)
    requires i <= |log|
  {
    && (forall e <- events :: e in log[..i] && from < e.id)
    && (forall k :: 0 <= k < i && from < log[k].id ==> log[k] in events)
  }

  lemma EmptyOrdered()
    ensures Ordered([])
  {
  }

  lemma PageFull(log: seq<Event>, i: nat, from: nat, most: nat, events: seq<Event>)
    requires Ordered(log) && i < |log| && |events| == most && 0 < most && Ordered(events) && from < log[i].id
          && Behind(log, i, from, events)
    ensures IsPage(log, from, most, events)
  {
    var last := events[|events| - 1];
    assert last in events;
    forall e | e in log && from < e.id
      ensures e in events || LatestId(events) < e.id
    {
      var k :| 0 <= k < |log| && log[k] == e;
      if k >= i {
        assert last.id < log[i].id && log[i].id <= log[k].id;
      }
    }
  }

  lemma PageShort(log: seq<Event>, from: nat, most: nat, events: seq<Event>)
    requires |events| <= most && Ordered(events) && Behind(log, |log|, from, events)
    ensures IsPage(log, from, most, events)
  {
    assert log[..|log|] == log;
  }

  lemma NextEvent(log: seq<Event>, i: nat, from: nat, events: seq<Event>)
    requires Ordered(log) && i < |log| && Ordered(events) && Behind(log, i, from, events)
    ensures if from < log[i].id then Ordered(events + [log[i]]) && Behind(log, i + 1, from, events + [log[i]])
            else Behind(log, i + 1, from, events)
  {
    forall k | 0 <= k < |events|
      ensures events[k].id < log[i].id && events[k] in log[..i + 1]
    {
      assert events[k] in log[..i];
    }
  }

  /** The `seen` loop: first occurrences, in order. */
  method Compact(ids: seq<Id>) returns (normalized: seq<Id>)
    ensures forall x :: x in normalized <==> x in ids
    ensures |normalized| == |UserSet(ids)|
  {
    normalized := [];
    var seen := {};
    for i := 0 to |ids|
      invariant seen == UserSet(ids[..i]) && |normalized| == |seen|
      invariant forall x :: x in normalized <==> x in ids[..i]
    {
      assert UserSet(ids[..i + 1]) == UserSet(ids[..i]) + {ids[i]};
      if ids[i] !in seen {
        seen := seen + {ids[i]};
        normalized := normalized + [ids[i]];
      }
    }
    assert ids[..|ids|] == ids;
  }

  lemma LiveRow(s: State, a: Id, org: Id, owner: Id)
    requires LiveAgent(s, a, org, owner)
    ensures a in s.agents
  {
  }

  lemma NoCarrier(s: State, digest: Id)
    requires forall m :: m in s.nodes && s.nodes[m].credential == Digest(digest) ==> s.nodes[m].revoked
    ensures forall n :: Carries(s, n, digest) ==> !Machines.ExchangeAdmits(s, n) && !Machines.Granted(s, n)
  {
    hide InOrg, LiveAgent, Working;
  }

  lemma OneCarrier(s: State, n: Id, digest: Id)
    requires Inv(s) && Carries(s, n, digest)
    ensures forall m :: Carries(s, m, digest) ==> m == n
    ensures Machines.ExchangeAdmits(s, n) <==> Machines.Granted(s, n)
  {
    hide Inv, Machines.ExchangeAdmits, Machines.Granted, NodeBacked;
    NodeOf(s, n);
    Machines.ExchangeDecided(s, n);
  }

  lemma NotGranted(s: State, n: Id)
    requires Inv(s) && n in s.nodes && !OwnerResolves(s, s.nodes[n])
    ensures !Machines.Granted(s, n)
  {
    hide Inv, NodeBacked, Working;
    NodeOf(s, n);
  }

  lemma IsGranted(s: State, n: Id)
    requires Inv(s) && n in s.nodes && !s.nodes[n].revoked && OwnerResolves(s, s.nodes[n])
    ensures Machines.Granted(s, n)
    ensures InOrg(s, s.nodes[n].org, s.nodes[n].owner)
    ensures 0 < |s.nodes[n].agents| <= MAX_VERIFIED_AGENTS
         && AllLive(s, s.nodes[n].agents, s.nodes[n].org, s.nodes[n].owner)
  {
    Machines.ExchangeDecided(s, n);
    hide Inv, LiveAgent, InOrg, Working;
  }
}
