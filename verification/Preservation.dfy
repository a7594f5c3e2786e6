/** Every transaction keeps the invariant. */
module Preservation {
  import opened Records
  import opened InvalidationLog
  import opened Schema
  import opened Organizations
  import opened Accounts
  import opened Devices
  import opened Entitlements
  import opened Control
  import Invitations
  import OrganizationInvariant
  import Sessions

  // ---- member updates -------------------------------------------------------------

  lemma AppendKeeps(log: seq<Event>, body: Draft)
    requires Ordered(log)
    ensures Ordered(Append(log, body))
  {
  }

  lemma NotifyKeeps(s: State, body: Draft)
    requires Inv(s) && s.deployment.Some?
    ensures Inv(Notify(s, body))
  {
    AppendKeeps(s.log, body);
    hide AccountsFit, InvitationsFit, SeatsFit, SessionsFit, AgentsFit, NodesFit, NodesBacked, PlansFit, ReceiptsFit,
      PlatformOwned, FreePlan, Ordered;
  }

  /** Only a set-up authority has rows. */
  lemma SetUpByUser(s: State, user: Id)
    requires Inv(s) && user in s.users
    ensures s.deployment.Some? && user in s.access && Ordered(s.log)
  {
    hide AccountsFit, InvitationsFit, SeatsFit, SessionsFit, AgentsFit, NodesFit, NodesBacked, PlansFit, ReceiptsFit,
      PlatformOwned, FreePlan;
    AccountAccess(s);
  }

  /** Profile writes keep the key and the username of every account. */
  lemma ProfileRows(users: map<Id, User>, identities: map<Id, string>, credentials: set<Id>, access: set<Id>,
      user: Id, row: User)
    requires AccountsFit(users, identities, credentials, access)
    requires user in users && row.username == users[user].username
    ensures AccountsFit(users[user := row], identities, credentials, access)
  {
    assert users[user := row].Keys == users.Keys;
    assert forall u :: u in users ==> users[user := row][u].username == users[u].username;
  }

  lemma ProfileKeeps(s: State, user: Id, row: User)
    requires Inv(s) && user in s.users && row.username == s.users[user].username
    ensures Inv(s.(users := s.users[user := row]))
    ensures s.users[user := row].Keys == s.users.Keys
  {
    hide AccountsFit, InvitationsFit, SeatsFit, SessionsFit, AgentsFit, NodesFit, NodesBacked, PlansFit, ReceiptsFit,
      PlatformOwned, FreePlan, Ordered;
    ProfileRows(s.users, s.identities, s.credentials.Keys, s.access.Keys, user, row);
    assert s.users[user := row].Keys == s.users.Keys;
  }

  lemma ProfileLogKeeps(s: State, user: Id, row: User, now: Time)
    requires Inv(s) && user in s.users && row.username == s.users[user].username
    ensures Inv(s.(users := s.users[user := row], log := ProfileLog(s.log, s.access, user, now)))
  {
    hide Inv;
    SetUpByUser(s, user);
    ProfileKeeps(s, user, row);
    NotifyKeeps(s.(users := s.users[user := row]), ProfileDraft(user, now));
  }

  /** A profile row and new events, together. */
  lemma RenamedKeep(s: State, user: Id, name: string, now: Time, log: seq<Event>)
    requires Inv(s) && user in s.users && Ordered(log)
    ensures Inv(s.(users := RenamedUsers(s.users, user, name, now), log := log))
  {
    hide AccountsFit, InvitationsFit, SeatsFit, SessionsFit, AgentsFit, NodesFit, NodesBacked, PlansFit, ReceiptsFit,
      PlatformOwned, FreePlan, Ordered;
    SetUpByUser(s, user);
    ProfileRows(s.users, s.identities, s.credentials.Keys, s.access.Keys, user,
      s.users[user].(displayName := name, updatedAt := now));
    assert RenamedUsers(s.users, user, name, now).Keys == s.users.Keys;
  }

  /** A promotion, a demotion or a removal of somebody who is not an owner. */
  lemma RewriteSeat(s: State, org: Id, user: Id, role: Role, active: bool, now: Time)
    requires SeatsFit(s.seats, s.orgs, s.users.Keys)
    requires ActiveSeat(s.seats, org, user) && !IsOwner(s.seats, org, user) && role != Owner
    ensures var seats := s.seats[Seat(org, user) := Membership(role, active, now)];
            && SeatsFit(seats, s.orgs, s.users.Keys)
            && (forall o, u :: ActiveSeat(seats, o, u)
                  <==> ActiveSeat(s.seats, o, u) && (active || !(o == org && u == user)))
            && (forall o, u :: IsOwner(seats, o, u) <==> IsOwner(s.seats, o, u))
  {
    var seats := s.seats[Seat(org, user) := Membership(role, active, now)];
    forall o, u
      ensures ActiveSeat(seats, o, u) <==> ActiveSeat(s.seats, o, u) && (active || !(o == org && u == user))
      ensures IsOwner(seats, o, u) <==> IsOwner(s.seats, o, u)
    {
    }
    forall o | ActiveOrg(s.orgs, o)
      ensures HasOwner(seats, o)
    {
      var u :| IsOwner(s.seats, o, u);
      assert IsOwner(seats, o, u);
    }
  }

  lemma SeatLogKeeps(log: seq<Event>, renamed: bool, org: Id, user: Id, role: Role, next: Change, now: Time)
    requires Ordered(log)
    ensures Ordered(SeatLog(log, renamed, org, user, role, next, now))
  {
    hide Ordered;
    AppendKeeps(log, ProfileDraft(user, now));
    var named := if renamed then Append(log, ProfileDraft(user, now)) else log;
    AppendKeeps(named, OrgDraft(user, org, !next.active, now));
  }

  /** The written seat, with agents and devices gone if it is revoked. */
  lemma SeatRowsKeep(s: State, org: Id, user: Id, next: Change, now: Time)
    requires Inv(s) && ActiveSeat(s.seats, org, user) && !IsOwner(s.seats, org, user) && next.role != Owner
    ensures Inv(SeatRows(s, org, user, next, now))
  {
    hide AccountsFit, InvitationsFit, SeatsFit, SessionsFit, AgentsFit, NodesFit, NodesBacked, PlansFit, ReceiptsFit,
      PlatformOwned, FreePlan, Ordered;
    var seats := s.seats[Seat(org, user) := Membership(next.role, next.active, now)];
    RewriteSeat(s, org, user, next.role, next.active, now);
    OrganizationInvariant.EvictAgents(s.agents, s.seats, seats, org, if next.active then {} else {user}, s.orgs.Keys,
      s.users.Keys);
    OrganizationInvariant.EvictNodes(s.nodes, s.agents, s.sessions, org, {user}, s.orgs.Keys, s.users.Keys);
    assert RevokeAgents(s.agents, org, {}) == s.agents;
  }

  lemma ChangeSeatKeeps(s: State, org: Id, user: Id, next: Change, now: Time)
    requires Inv(s) && user in s.users && user in s.access
    requires ActiveSeat(s.seats, org, user) && !IsOwner(s.seats, org, user) && next.role != Owner
    ensures Inv(ChangeSeat(s, org, user, next, now))
  {
    hide Inv, RenamedUsers, SeatLog, Ordered, RevokeAgents, RevokeNodes;
    SetUpByUser(s, user);
    SeatRowsKeep(s, org, user, next, now);
    SeatLogKeeps(s.log, next.name != s.users[user].displayName && s.access[user].active, org, user,
      s.seats[Seat(org, user)].role, next, now);
    RenamedKeep(SeatRows(s, org, user, next, now), user, next.name, now, ChangeSeat(s, org, user, next, now).log);
  }

  lemma UpdateMemberKeeps(s: State, org: Id, user: Id, actor: Id, expected: Expected, next: Change, now: Time)
    requires Inv(s)
    ensures Inv(UpdateMember(s, org, user, actor, expected, next, now).After(s))
  {
    hide Inv;
    if UpdateMember(s, org, user, actor, expected, next, now).Commit? {
      ChangeSeatKeeps(s, org, user, next, now);
    }
  }

  lemma PlatformKeeps(access: map<Id, Access>, user: Id, row: Access)
    requires PlatformOwned(access) && (user in access ==> access[user].role != Owner)
    ensures PlatformOwned(access[user := row])
  {
    var u :| u in access && access[u].active && access[u].role == Owner;
    assert u in access[user := row] && access[user := row][u] == access[u];
  }

  lemma AccessRowKeeps(s: State, user: Id, row: Access)
    requires Inv(s) && user in s.access && s.access[user].role != Owner
    ensures Inv(s.(access := s.access[user := row]))
  {
    hide AccountsFit, InvitationsFit, SeatsFit, SessionsFit, AgentsFit, NodesFit, NodesBacked, PlansFit, ReceiptsFit,
      PlatformOwned, FreePlan, Ordered;
    if s.deployment.Some? {
      PlatformKeeps(s.access, user, row);
    }
    assert s.access[user := row].Keys == s.access.Keys;
  }

  /** Revoking sessions moves no row. */
  lemma SessionTableKeeps(s: State, sessions: map<Id, Session>)
    requires Inv(s) && sessions.Keys == s.sessions.Keys
    requires forall k :: k in sessions ==>
              sessions[k].user == s.sessions[k].user && sessions[k].token == s.sessions[k].token
    ensures Inv(s.(sessions := sessions))
  {
    hide AccountsFit, InvitationsFit, SeatsFit, AgentsFit, NodesBacked, PlansFit, ReceiptsFit, PlatformOwned,
      FreePlan, Ordered;
  }

  lemma AccessLogKeeps(log: seq<Event>, renamed: bool, user: Id, row: Access, next: Change, now: Time)
    requires Ordered(log)
    ensures Ordered(AccessLog(log, renamed, user, row, next, now))
  {
    hide Ordered;
    AppendKeeps(log, ProfileDraft(user, now));
    var named := if renamed && next.active then Append(log, ProfileDraft(user, now)) else log;
    AppendKeeps(named, PrincipalDraft(user, now));
  }

  lemma ChangeAccessKeeps(s: State, user: Id, next: Change, now: Time)
    requires Inv(s) && user in s.users && user in s.access && s.access[user].role != Owner
    ensures Inv(ChangeAccess(s, user, next, now))
  {
    hide Inv, RenamedUsers, AccessLog, Ordered;
    SetUpByUser(s, user);
    var row := Access(next.role, next.active, s.access[user].webDisabled, now);
    AccessRowKeeps(s, user, row);
    var written := s.(access := s.access[user := row]);
    SessionTableKeeps(written, if next.active then s.sessions else RevokeSessionsOf(s.sessions, user));
    AccessLogKeeps(s.log, next.name != s.users[user].displayName, user, s.access[user], next, now);
    RenamedKeep(written.(sessions := if next.active then s.sessions else RevokeSessionsOf(s.sessions, user)),
      user, next.name, now, ChangeAccess(s, user, next, now).log);
  }

  lemma UpdateAccessKeeps(s: State, user: Id, actor: Id, expected: Expected, next: Change, now: Time)
    requires Inv(s)
    ensures Inv(UpdateDeploymentMember(s, user, actor, expected, next, now).After(s))
  {
    hide Inv;
    if UpdateDeploymentMember(s, user, actor, expected, next, now).Commit? {
      ChangeAccessKeeps(s, user, next, now);
    }
  }

  lemma UpdateAvatarKeeps(s: State, user: Id, avatar: string, now: Time)
    requires Inv(s)
    ensures Inv(UpdateAvatar(s, user, avatar, now).After(s))
  {
    hide Inv;
    if user in s.users {
      ProfileLogKeeps(s, user, s.users[user].(avatar := avatar, updatedAt := now), now);
    }
  }

  // ---- accounts -------------------------------------------------------------------

  lemma AccountRows(s: State, a: NewAccount, role: Role, webDisabled: bool, now: Time)
    requires AccountsFit(s.users, s.identities, s.credentials.Keys, s.access.Keys)
    requires a.user !in s.users && !UsernameTaken(s, a.username)
    ensures var out := AddAccount(s, a, role, webDisabled, now);
            && AccountsFit(out.users, out.identities, out.credentials.Keys, out.access.Keys)
            && out.users.Keys == s.users.Keys + {a.user} && out.access.Keys == s.access.Keys + {a.user}
  {
    hide AccountsFit, UsernameTaken;
    FreeName(s, a.username);
    NameRows(s.users, s.identities, s.credentials.Keys, s.access.Keys, a.user,
      User(a.username, a.displayName, "", true, now));
    AddedKeys(s, a, role, webDisabled, now);
  }

  lemma AddedKeys(s: State, a: NewAccount, role: Role, webDisabled: bool, now: Time)
    ensures var out := AddAccount(s, a, role, webDisabled, now);
            && out.users.Keys == s.users.Keys + {a.user} && out.access.Keys == s.access.Keys + {a.user}
            && out.credentials.Keys == s.credentials.Keys + {a.user}
  {
  }

  lemma FreeName(s: State, username: string)
    requires !UsernameTaken(s, username)
    ensures forall u :: u in s.users ==> s.users[u].username != username
  {
    assert forall u :: u in s.users ==> u in s.users.Keys;
  }

  lemma NameRows(users: map<Id, User>, identities: map<Id, string>, credentials: set<Id>, access: set<Id>,
      user: Id, row: User)
    requires AccountsFit(users, identities, credentials, access)
    requires user !in users && forall u :: u in users ==> users[u].username != row.username
    ensures AccountsFit(users[user := row], identities[user := row.username], credentials + {user}, access + {user})
  {
  }

  /** New accounts leave every foreign key valid. */
  lemma AddAccountKeeps(s: State, a: NewAccount, role: Role, webDisabled: bool, now: Time)
    requires Inv(s) && a.user !in s.users && !UsernameTaken(s, a.username) && s.deployment.Some?
    ensures Inv(AddAccount(s, a, role, webDisabled, now))
    ensures forall o :: !ActiveSeat(s.seats, o, a.user)
  {
    hide AccountsFit, InvitationsFit, SeatsFit, SessionsFit, AgentsFit, NodesFit, NodesBacked, PlansFit, ReceiptsFit,
      FreePlan, UsernameTaken;
    var out := AddAccount(s, a, role, webDisabled, now);
    AccountRows(s, a, role, webDisabled, now);
    AccountKeys(s, a.user);
    assert a.user !in s.access by {
      AccountAccess(s);
    }
    var u :| u in s.access && s.access[u].active && s.access[u].role == Owner;
    assert u in out.access && out.access[u].active && out.access[u].role == Owner;
  }

  lemma AccountAccess(s: State)
    requires AccountsFit(s.users, s.identities, s.credentials.Keys, s.access.Keys)
    ensures s.users.Keys == s.access.Keys == s.credentials.Keys == s.identities.Keys
  {
  }

  lemma AccountKeys(s: State, user: Id)
    requires Inv(s) && user !in s.users
    ensures SeatsFit(s.seats, s.orgs, s.users.Keys + {user})
    ensures InvitationsFit(s.invitations, s.orgs.Keys, s.users.Keys + {user}, s.issuedInvitations)
    ensures SessionsFit(s.sessions, s.access.Keys + {user}, s.issuedSessions)
    ensures AgentsFit(s.agents, s.seats, s.orgs.Keys, s.users.Keys + {user})
    ensures NodesFit(s.nodes, s.sessions, s.orgs.Keys, s.users.Keys + {user})
    ensures PlansFit(s.plans.Keys, s.grants, s.access.Keys + {user})
    ensures ReceiptsFit(s.receipts.Keys, s.users.Keys + {user})
    ensures forall o :: !ActiveSeat(s.seats, o, user)
  {
    hide AccountsFit, NodesBacked, SetupFits, HasOwner;
    assert forall i :: i in s.invitations ==> InvitationFits(s.invitations[i], s.orgs.Keys, s.users.Keys + {user});
  }

  lemma RegisterKeeps(s: State, a: NewAccount, now: Time)
    requires Inv(s) && a.user !in s.users
    ensures Inv(RegisterAccount(s, a, now).After(s))
  {
    hide Inv, UsernameTaken;
    if RegisterAccount(s, a, now).Commit? {
      AddAccountKeeps(s, a, Member, false, now);
    }
  }

  lemma CreateMemberKeeps(s: State, actor: Id, a: NewAccount, role: Role, now: Time)
    requires Inv(s) && a.user !in s.users
    ensures Inv(CreateDeploymentMember(s, actor, a, role, now).After(s))
  {
    hide Inv, UsernameTaken;
    if CreateDeploymentMember(s, actor, a, role, now).Commit? {
      AddAccountKeeps(s, a, role, false, now);
    }
  }

  /** First account, first organization, default plans: only ever on empty tables. */
  lemma CreateOwnerKeeps(s: State, a: NewAccount, org: Id, name: string, now: Time)
    requires Inv(s)
    ensures Inv(CreateOwner(s, a, org, name, now).After(s))
  {
    if CreateOwner(s, a, org, name, now).Commit? {
      BlankWhenRequired(s);
      FirstRows(s, a, org, name, now);
    }
  }

  /** Before setup every table is empty; `SetupRequired` is exactly that. */
  lemma BlankWhenRequired(s: State)
    requires Inv(s)
    ensures SetupRequired(s) <==> s.deployment.None?
    ensures s.deployment.None? ==>
      s == EMPTY.(deployment := None, issuedSessions := s.issuedSessions, issuedInvitations := s.issuedInvitations)
  {
    if s.deployment.Some? {
      hide AccountsFit, InvitationsFit, SeatsFit, SessionsFit, AgentsFit, NodesFit, NodesBacked, PlansFit, ReceiptsFit;
      var u :| u in s.access && s.access[u].active && s.access[u].role == Owner;
      assert u in s.access.Keys;
    } else {
      BlankTables(s);
    }
  }

  lemma BlankTables(s: State)
    requires Inv(s) && s.deployment.None?
    ensures s.users == map[] && s.identities == map[] && s.credentials == map[] && s.access == map[] && s.orgs == map[]
    ensures s.seats == map[] && s.invitations == map[] && s.sessions == map[] && s.agents == map[] && s.nodes == map[]
    ensures s.plans == map[] && s.grants == map[] && s.receipts == map[] && s.log == []
  {
    hide OneActiveSeat, OneOwner, HasOwner, NodeBacked;
    assert s.sessions.Keys == {} && s.nodes.Keys == {} && s.grants.Keys == {} && s.receipts.Keys == {};
  }

  lemma FirstRows(s: State, a: NewAccount, org: Id, name: string, now: Time)
    requires s == EMPTY.(issuedSessions := s.issuedSessions, issuedInvitations := s.issuedInvitations)
          && AccountAllowed(a)
    ensures Inv(CreateOwner(s, a, org, name, now).After(s))
  {
    hide AccountAllowed;
    var out := CreateOwner(s, a, org, name, now).state;
    FirstSeats(out, a.user, org);
    FirstAccount(out, a.user);
    EmptyTables(out);
    assert FREE in out.plans;
    hide AccountsFit, SeatsFit, InvitationsFit, SessionsFit, AgentsFit, NodesFit, NodesBacked, ReceiptsFit,
      PlatformOwned;
  }

  lemma FirstAccount(out: State, user: Id)
    requires out.users.Keys == out.identities.Keys == out.credentials.Keys == out.access.Keys == {user}
    requires out.identities[user] == out.users[user].username && out.access[user].active
          && out.access[user].role == Owner
    ensures AccountsFit(out.users, out.identities, out.credentials.Keys, out.access.Keys) && PlatformOwned(out.access)
  {
    assert user in out.access;
    assert forall u :: u in out.users ==> u in out.users.Keys;
  }

  lemma EmptyTables(out: State)
    requires out.invitations == map[] && out.sessions == map[] && out.agents == map[] && out.nodes == map[]
          && out.receipts == map[]
    ensures InvitationsFit(out.invitations, out.orgs.Keys, out.users.Keys, out.issuedInvitations)
    ensures SessionsFit(out.sessions, out.access.Keys, out.issuedSessions)
    ensures AgentsFit(out.agents, out.seats, out.orgs.Keys, out.users.Keys)
    ensures NodesFit(out.nodes, out.sessions, out.orgs.Keys, out.users.Keys) && NodesBacked(out.nodes, out.agents)
    ensures ReceiptsFit(out.receipts.Keys, out.users.Keys)
  {
  }

  lemma FirstSeats(out: State, user: Id, org: Id)
    requires out.seats.Keys == {Seat(org, user)} && IsOwner(out.seats, org, user) && out.orgs.Keys == {org}
          && user in out.users && out.orgs[org].active
    ensures SeatsFit(out.seats, out.orgs, out.users.Keys)
  {
    assert forall k :: k in out.seats ==> k in out.seats.Keys;
    assert forall o :: ActiveOrg(out.orgs, o) ==> o in out.orgs.Keys;
  }

  // ---- invitations ------------------------------------------------------------------

  lemma InvitationRowKeeps(s: State, i: Id, row: Invitation, issued: set<Id>)
    requires Inv(s) && InvitationFits(row, s.orgs.Keys, s.users.Keys) && s.issuedInvitations <= issued && i in issued
    requires forall j :: j in s.invitations && j != i ==> s.invitations[j].token != row.token
    ensures Inv(s.(invitations := s.invitations[i := row], issuedInvitations := issued))
  {
    hide AccountsFit, SeatsFit, SessionsFit, AgentsFit, NodesFit, NodesBacked, PlansFit, ReceiptsFit, PlatformOwned,
      FreePlan, Ordered, InvitationFits;
  }

  lemma InvitationOf(s: State, i: Id)
    requires Inv(s) && i in s.invitations
    ensures InvitationFits(s.invitations[i], s.orgs.Keys, s.users.Keys) && i in s.issuedInvitations
    ensures forall j :: j in s.invitations && j != i ==> s.invitations[j].token != s.invitations[i].token
  {
    hide AccountsFit, SeatsFit, SessionsFit, AgentsFit, NodesFit, NodesBacked, PlansFit, ReceiptsFit, PlatformOwned,
      FreePlan, Ordered, InvitationFits;
  }

  lemma CreateInvitationKeeps(s: State, id: Id, org: Id, token: Id, role: Role, creator: Id, expires: Time)
    requires Inv(s)
    ensures Inv(Invitations.CreateInvitation(s, id, org, token, role, creator, expires).After(s))
  {
    hide Inv;
    if Invitations.CreateInvitation(s, id, org, token, role, creator, expires).Commit? {
      assert forall j :: j in s.invitations ==> j in s.invitations.Keys && s.invitations[j].token != token;
      InvitationRowKeeps(s, id, Invitation(org, token, role, creator, expires, None, None, None),
        s.issuedInvitations + {id});
    }
  }

  lemma RevokeInvitationKeeps(s: State, org: Id, id: Id, actor: Id, now: Time)
    requires Inv(s)
    ensures Inv(Invitations.RevokeInvitation(s, org, id, actor, now).After(s))
  {
    hide Inv;
    if Invitations.RevokeInvitation(s, org, id, actor, now).Commit? {
      InvitationOf(s, id);
      InvitationRowKeeps(s, id, s.invitations[id].(revokedAt := Some(now)), s.issuedInvitations);
    }
  }

  lemma DeleteInvitationKeeps(s: State, org: Id, id: Id, actor: Id, now: Time)
    requires Inv(s)
    ensures Inv(Invitations.DeleteInvitation(s, org, id, actor, now).After(s))
  {
    hide AccountsFit, SeatsFit, SessionsFit, AgentsFit, NodesFit, NodesBacked, PlansFit, ReceiptsFit, PlatformOwned,
      FreePlan, Ordered, InvitationFits, Manages, Invitations.Terminal;
  }

  lemma AcceptInvitationKeeps(s: State, token: Id, a: NewAccount, now: Time)
    requires Inv(s) && a.user !in s.users
    ensures Inv(Invitations.AcceptInvitation(s, token, a, now).After(s))
  {
    hide Inv, UsernameTaken;
    if Invitations.AcceptInvitation(s, token, a, now).Commit? {
      var i := InvitationByToken(s.invitations, token).value;
      AddAccountKeeps(s, a, Member, true, now);
      AcceptNewKeeps(AddAccount(s, a, Member, true, now), i, a.user, now);
    }
  }

  lemma AcceptNewKeeps(s: State, i: Id, user: Id, now: Time)
    requires Inv(s) && i in s.invitations && Open(s.invitations[i], now) && ActiveOrg(s.orgs, s.invitations[i].org)
    requires user in s.users && forall o :: !ActiveSeat(s.seats, o, user)
    ensures var inv := s.invitations[i];
            Inv(Accept(Enter(s, inv.org, user, inv.role, now), i, user, now))
  {
    hide AccountsFit, SeatsFit, SessionsFit, AgentsFit, NodesFit, NodesBacked, PlansFit, ReceiptsFit, PlatformOwned,
      FreePlan, Ordered, InvitationsFit;
    InvitationOf(s, i);
    OrganizationInvariant.EnterKeeps(s, s.invitations[i].org, user, s.invitations[i].role, now);
    OrganizationInvariant.AcceptKeeps(s, i, user, now);
  }

  // ---- sessions and passwords ----------------------------------------------------------

  /** The purge only drops sessions without a live device, and with them only revoked devices. */
  lemma PurgeKeeps(s: State, now: Time)
    requires Inv(s)
    ensures Inv(Sessions.Purge(s, now))
  {
    hide AccountsFit, InvitationsFit, SeatsFit, AgentsFit, PlansFit, ReceiptsFit, PlatformOwned, FreePlan, Ordered,
      Sessions.DeadSessions, NodeBacked;
  }

  lemma CreateSessionKeeps(s: State, id: Id, user: Id, token: Id, expires: Time, now: Time)
    requires Inv(s) && id !in s.issuedSessions
    ensures Inv(Sessions.CreateSession(s, id, user, token, expires, now).After(s))
  {
    hide Inv, Sessions.Purge;
    if Sessions.CreateSession(s, id, user, token, expires, now).Commit? {
      var kept := Sessions.Purge(s, now);
      PurgeKeeps(s, now);
      PurgeFrame(s, now);
      assert forall k :: k in kept.sessions ==> k in kept.sessions.Keys && kept.sessions[k].token != token;
      SessionRowKeeps(kept, id, Session(user, token, expires, false));
      ProfileKeeps(kept.(sessions := kept.sessions[id := Session(user, token, expires, false)],
                         issuedSessions := kept.issuedSessions + {id}),
        user, kept.users[user].(updatedAt := now));
    }
  }

  lemma PurgeFrame(s: State, now: Time)
    ensures var out := Sessions.Purge(s, now); out == s.(sessions := out.sessions, nodes := out.nodes)
  {
  }

  lemma SessionRowKeeps(s: State, id: Id, row: Session)
    requires Inv(s) && id !in s.issuedSessions && row.user in s.access
    requires forall k :: k in s.sessions ==> s.sessions[k].token != row.token
    ensures Inv(s.(sessions := s.sessions[id := row], issuedSessions := s.issuedSessions + {id}))
  {
    hide AccountsFit, InvitationsFit, SeatsFit, AgentsFit, PlansFit, ReceiptsFit, PlatformOwned, FreePlan,
      Ordered, NodesBacked;
  }

  lemma RevokeSessionKeeps(s: State, token: Id, now: Time)
    requires Inv(s)
    ensures Inv(Sessions.RevokeSession(s, token, now).After(s))
  {
    hide Inv;
    var k := SessionByToken(s.sessions, token);
    if k.Some? && !s.sessions[k.value].revoked {
      RevokeRowKeeps(s, k.value);
      NotifyKeeps(s.(sessions := s.sessions[k.value := s.sessions[k.value].(revoked := true)]),
        Draft(s.sessions[k.value].user, SessionRef(k.value), SessionRevoked, None, false, now));
    }
  }

  lemma SessionOwner(s: State, k: Id)
    requires Inv(s) && k in s.sessions
    ensures s.sessions[k].user in s.users && s.deployment.Some?
  {
    hide InvitationsFit, SeatsFit, AgentsFit, PlansFit, ReceiptsFit, Ordered, NodesBacked, NodesFit,
      PlatformOwned, FreePlan;
    AccountAccess(s);
    hide AccountsFit;
    assert s.sessions[k].user in s.users.Keys;
  }

  lemma RevokeRowKeeps(s: State, k: Id)
    requires Inv(s) && k in s.sessions
    ensures Inv(s.(sessions := s.sessions[k := s.sessions[k].(revoked := true)])) && s.deployment.Some?
  {
    hide Inv;
    SessionOwner(s, k);
    SessionTableKeeps(s, s.sessions[k := s.sessions[k].(revoked := true)]);
  }

  lemma TryPasswordKeeps(s: State, key: Request, current: Hash, next: Hash, rows: seq<Id>, now: Time)
    requires Inv(s)
    ensures Inv(Sessions.TryCommitPassword(s, key, current, next, rows, now).After(s))
  {
    hide InvitationsFit, SeatsFit, SessionsFit, AgentsFit, PlansFit, PlatformOwned, FreePlan, Ordered, AccountsFit,
      NodesFit, NodesBacked;
    if Sessions.TryCommitPassword(s, key, current, next, rows, now).Commit? {
      assert s.credentials[key.user := next].Keys == s.credentials.Keys;
      assert key.user in s.users.Keys;
      ForNodesShape(s.log, rows, Sessions.NodeDraft(key.user, 0, now));
      RevokedNodesKeep(s, key.user);
    }
  }

  lemma RevokedNodesKeep(s: State, owner: Id)
    requires NodesFit(s.nodes, s.sessions, s.orgs.Keys, s.users.Keys) && NodesBacked(s.nodes, s.agents)
    ensures var nodes := Sessions.RevokeNodesOf(s.nodes, owner);
            NodesFit(nodes, s.sessions, s.orgs.Keys, s.users.Keys) && NodesBacked(nodes, s.agents)
  {
    hide NodeBacked;
  }

  lemma SettleKeeps(s: State, key: Request)
    requires Inv(s)
    ensures Inv(Sessions.SettlePassword(s, key).After(s))
  {
    hide InvitationsFit, SeatsFit, SessionsFit, AgentsFit, PlansFit, PlatformOwned, FreePlan, Ordered, AccountsFit,
      NodesFit, NodesBacked;
  }

  // ---- agents and devices ----------------------------------------------------------------

  lemma UpsertAgentKeeps(s: State, id: Id, org: Option<Id>, owner: Id, source: Id, name: string, avatar: string)
    requires Inv(s) && id !in s.agents
    ensures Inv(UpsertAgent(s, id, org, owner, source, name, avatar).After(s))
  {
    hide Inv, PutAgent;
    if UpsertAgent(s, id, org, owner, source, name, avatar).Commit? {
      AgentTableKeeps(s, id, Agent(org.value, owner, source, name, avatar, true));
    }
  }

  lemma AgentTableKeeps(s: State, id: Id, row: Agent)
    requires Inv(s) && id !in s.agents
    requires row.active && row.org in s.orgs && row.owner in s.users && ActiveSeat(s.seats, row.org, row.owner)
    ensures Inv(s.(agents := PutAgent(s.agents, id, row)))
  {
    hide AccountsFit, InvitationsFit, SeatsFit, SessionsFit, PlansFit, ReceiptsFit, PlatformOwned, FreePlan, Ordered,
      NodesFit, AgentsFit, NodesBacked, ActiveSeat, PutAgent;
    AgentRows(s.agents, s.seats, s.orgs.Keys, s.users.Keys, id, row);
    StillBacked(s.nodes, s.agents, PutAgent(s.agents, id, row));
  }

  /** Publishing adds or refreshes one active agent and takes none away. */
  lemma AgentRows(agents: map<Id, Agent>, seats: map<Seat, Membership>, orgs: set<Id>, users: set<Id>,
      id: Id, row: Agent)
    requires AgentsFit(agents, seats, orgs, users) && row.active && id !in agents
    requires row.org in orgs && row.owner in users && ActiveSeat(seats, row.org, row.owner)
    ensures AgentsFit(PutAgent(agents, id, row), seats, orgs, users)
    ensures forall a, o, u :: OwnsAgent(agents, a, o, u) ==> OwnsAgent(PutAgent(agents, id, row), a, o, u)
  {
    assert forall a :: a in agents ==> a in agents.Keys;
  }

  lemma StillBacked(nodes: map<Id, Node>, before: map<Id, Agent>, after: map<Id, Agent>)
    requires NodesBacked(nodes, before)
    requires forall a, o, u :: OwnsAgent(before, a, o, u) ==> OwnsAgent(after, a, o, u)
    ensures NodesBacked(nodes, after)
  {
    forall n | n in nodes && !nodes[n].revoked
      ensures NodeBacked(nodes[n], after)
    {
      assert NodeBacked(nodes[n], before);
    }
  }

  lemma NodeRowKeeps(s: State, id: Id, row: Node)
    requires Inv(s) && row.org in s.orgs && row.owner in s.users
    requires row.session in s.sessions && s.sessions[row.session].user == row.owner
    requires row.credential.Tombstone? ==> row.credential.node == id
    requires forall n :: n in s.nodes && n != id ==> s.nodes[n].credential != row.credential
    requires row.revoked || NodeBacked(row, s.agents)
    ensures Inv(s.(nodes := s.nodes[id := row]))
  {
    hide AccountsFit, InvitationsFit, SeatsFit, SessionsFit, AgentsFit, PlansFit, ReceiptsFit, PlatformOwned, FreePlan,
      Ordered, NodeBacked;
  }

  /** The canonical list has the same members and stays nonempty. */
  lemma {:induction false} InsertMembers(id: Id, ids: seq<Id>)
    requires StrictlySorted(ids)
    ensures StrictlySorted(Insert(id, ids)) && |Insert(id, ids)| <= |ids| + 1
    ensures forall x :: x in Insert(id, ids) <==> x == id || x in ids
  {
    if ids != [] && ids[0] < id {
      InsertMembers(id, ids[1..]);
      var rest := Insert(id, ids[1..]);
      assert forall x :: x in ids <==> x == ids[0] || x in ids[1..];
      forall i | 0 <= i < |rest|
        ensures ids[0] < rest[i]
      {
        assert rest[i] in rest;
        assert forall k :: 0 <= k < |ids[1..]| ==> ids[0] < ids[1..][k];
      }
      Prepended(ids[0], rest);
    }
  }

  lemma Prepended(id: Id, ids: seq<Id>)
    requires StrictlySorted(ids) && forall i :: 0 <= i < |ids| ==> id < ids[i]
    ensures StrictlySorted([id] + ids) && forall x :: x in [id] + ids <==> x == id || x in ids
  {
  }

  lemma {:induction false} CanonicalMembers(ids: seq<Id>)
    ensures StrictlySorted(Canonical(ids)) && |Canonical(ids)| <= |ids|
    ensures forall x :: x in Canonical(ids) <==> x in ids
  {
    if ids != [] {
      CanonicalMembers(ids[..|ids| - 1]);
      InsertMembers(ids[|ids| - 1], Canonical(ids[..|ids| - 1]));
      assert forall x :: x in ids <==> x == ids[|ids| - 1] || x in ids[..|ids| - 1];
    }
  }

  lemma RegisterNodeKeeps(s: State, owner: Id, org: Option<Id>, session: Id, r: Registration, now: Time)
    requires Inv(s)
    ensures Inv(RegisterNode(s, owner, org, session, r, now).After(s))
  {
    hide Inv, Canonical;
    if RegisterNode(s, owner, org, session, r, now).Commit? && r.node !in s.nodes {
      var row := NewNode(owner, org.value, session, r, now);
      assert r.agents[0] in r.agents && LiveAgent(s, r.agents[0], org.value, owner);
      CanonicalMembers(r.agents);
      assert r.agents[0] in row.agents;
      forall i | 0 <= i < |row.agents|
        ensures OwnsAgent(s.agents, row.agents[i], row.org, row.owner)
      {
        assert row.agents[i] in r.agents && LiveAgent(s, row.agents[i], org.value, owner);
      }
      assert forall n :: n in s.nodes ==> n in s.nodes.Keys && s.nodes[n].credential != row.credential;
      NodeRowKeeps(s, r.node, row);
    }
  }

  lemma NodeOf(s: State, n: Id)
    requires Inv(s) && n in s.nodes
    ensures var row := s.nodes[n];
            && row.org in s.orgs && row.owner in s.users && row.session in s.sessions
            && s.sessions[row.session].user == row.owner
            && (row.credential.Tombstone? ==> row.credential.node == n)
    ensures forall m :: m in s.nodes && m != n ==> s.nodes[m].credential != s.nodes[n].credential
    ensures !s.nodes[n].revoked ==> NodeBacked(s.nodes[n], s.agents)
  {
    hide AccountsFit, InvitationsFit, SeatsFit, SessionsFit, AgentsFit, PlansFit, ReceiptsFit, SetupFits,
      Ordered, NodeBacked;
  }

  /** A tombstone's credential belongs to its own node id alone. */
  lemma TombstoneFree(s: State, node: Id)
    requires Inv(s) && node !in s.nodes
    ensures forall n :: n in s.nodes ==> s.nodes[n].credential != Tombstone(node)
  {
    hide AccountsFit, InvitationsFit, SeatsFit, SessionsFit, AgentsFit, PlansFit, ReceiptsFit, SetupFits,
      Ordered, NodesBacked;
  }

  lemma RevokeNodeKeeps(s: State, owner: Id, org: Option<Id>, session: Id, node: Id, now: Time)
    requires Inv(s)
    ensures Inv(RevokeNode(s, owner, org, session, node, now).After(s))
  {
    hide Inv;
    if RevokeNode(s, owner, org, session, node, now).Commit? {
      if node in s.nodes {
        NodeOf(s, node);
        SetUpByUser(s, owner);
        NodeRowKeeps(s, node, s.nodes[node].(revoked := true));
        NotifyKeeps(s.(nodes := s.nodes[node := s.nodes[node].(revoked := true)]),
          Sessions.NodeDraft(owner, node, now));
      } else {
        TombstoneFree(s, node);
        SessionOwner(s, session);
        NodeRowKeeps(s, node, TombstoneNode(owner, org.value, session, node, now));
      }
    }
  }

  // ---- plans ---------------------------------------------------------------------------------

  lemma BillingKeeps(s: State, plans: map<string, Plan>, grants: map<Id, Grant>, log: seq<Event>)
    requires Inv(s) && s.deployment.Some? && FreePlan(plans) && PlansFit(plans.Keys, grants, s.access.Keys)
          && Ordered(log)
    ensures Inv(s.(plans := plans, grants := grants, log := log))
  {
    hide AccountsFit, InvitationsFit, SeatsFit, SessionsFit, AgentsFit, NodesFit, NodesBacked, PlansFit, ReceiptsFit,
      PlatformOwned, FreePlan, Ordered;
  }

  lemma BillingOf(s: State)
    requires Inv(s) && s.deployment.Some?
    ensures FreePlan(s.plans) && PlansFit(s.plans.Keys, s.grants, s.access.Keys) && Ordered(s.log)
  {
    hide AccountsFit, InvitationsFit, SeatsFit, SessionsFit, AgentsFit, NodesFit, NodesBacked, PlansFit, ReceiptsFit,
      PlatformOwned, FreePlan, Ordered;
  }

  lemma UpsertPlanKeeps(s: State, key: string, plan: Plan, rows: seq<Id>, now: Time)
    requires Inv(s)
    ensures Inv(UpsertPlan(s, key, plan, rows, now).After(s))
  {
    hide Inv;
    if UpsertPlan(s, key, plan, rows, now).Commit? {
      BillingOf(s);
      ForUsersShape(s.log, rows, PlanDraft(0, now));
      BillingKeeps(s, s.plans[key := plan.(updatedAt := now)], s.grants, ForUsers(s.log, rows, PlanDraft(0, now)));
    }
  }

  lemma SetGrantKeeps(s: State, user: Id, key: string, now: Time)
    requires Inv(s)
    ensures Inv(SetGrant(s, user, key, now).After(s))
  {
    hide Inv;
    if SetGrant(s, user, key, now).Commit? {
      BillingOf(s);
      AppendKeeps(s.log, PlanDraft(user, now));
      BillingKeeps(s, s.plans, s.grants[user := Grant(key, now)], Append(s.log, PlanDraft(user, now)));
    }
  }

  lemma {:induction false} PutPlansKeep(plans: map<string, Plan>, rows: seq<PlanRow>)
    requires FreePlan(plans) && forall p <- rows :: PlanAllowed(p.key, p.value)
    ensures FreePlan(Put(plans, rows)) && plans.Keys <= Put(plans, rows).Keys
  {
    if rows != [] {
      assert rows[|rows| - 1] in rows;
      PutPlansKeep(plans, rows[..|rows| - 1]);
    }
  }

  lemma {:induction false} PutGrantsKeep(s: State, plans: map<string, Plan>, rows: seq<GrantRow>)
    requires PlansFit(plans.Keys, s.grants, s.access.Keys) && GrantFault(s, plans, rows).None?
    ensures PlansFit(plans.Keys, Put(s.grants, rows), s.access.Keys)
  {
    if rows != [] {
      PutGrantsKeep(s, plans, rows[..|rows| - 1]);
    }
  }

  lemma SubscriptionsKeep(s: State, plans: seq<PlanRow>, grants: seq<GrantRow>, rows: seq<Id>, now: Time)
    requires Inv(s)
    ensures Inv(ImportSubscriptions(s, plans, grants, rows, now).After(s))
  {
    hide Inv, PlanAllowed;
    if ImportSubscriptions(s, plans, grants, rows, now).Commit? {
      var merged := Put(s.plans, plans);
      BillingOf(s);
      PutPlansKeep(s.plans, plans);
      PutGrantsKeep(s, merged, grants);
      ForUsersShape(s.log, rows, PlanDraft(0, now));
      BillingKeeps(s, merged, Put(s.grants, grants), ForUsers(s.log, rows, PlanDraft(0, now)));
    }
  }

  // ---- every step ------------------------------------------------------------------------------

  lemma MigratedKeeps(source: State)
    requires Inv(source)
    ensures Inv(Migrated(source))
  {
    hide AccountsFit, InvitationsFit, SeatsFit, AgentsFit, PlansFit, PlatformOwned, FreePlan, Ordered;
  }

  lemma StepKeeps(s: State, a: Action)
    requires Inv(s) && Allowed(s, a)
    ensures Inv(Step(s, a))
  {
    hide Inv, Lists, CreateOwner, RegisterAccount, CreateDeploymentMember, UpdateDeploymentMember, UpdateAvatar,
      Mutate, UpdateMember,
      Invitations.CreateInvitation, Invitations.RevokeInvitation, Invitations.DeleteInvitation,
      Invitations.AcceptInvitation, Sessions.CreateSession, Sessions.RevokeSession, Sessions.TryCommitPassword,
      Sessions.SettlePassword, UpsertAgent, RegisterNode, RevokeNode, UpsertPlan, SetGrant,
      ImportSubscriptions, Admissible;
    match a
    case DoCreateOwner(account, org, name, now) => CreateOwnerKeeps(s, account, org, name, now);
    case DoImport(source) => MigratedKeeps(source);
    case DoRegister(account, now) => RegisterKeeps(s, account, now);
    case DoCreateMember(actor, account, role, now) => CreateMemberKeeps(s, actor, account, role, now);
    case DoUpdateAccess(user, actor, expected, next, now) => UpdateAccessKeeps(s, user, actor, expected, next, now);
    case DoUpdateAvatar(user, avatar, now) => UpdateAvatarKeeps(s, user, avatar, now);
    case DoMutate(actor, home, command, now) => OrganizationInvariant.MutateKeeps(s, actor, home, command, now);
    case DoUpdateMember(org, user, actor, expected, next, now) =>
      UpdateMemberKeeps(s, org, user, actor, expected, next, now);
    case DoInvite(id, org, token, role, actor, expires) =>
      CreateInvitationKeeps(s, id, org, token, role, actor, expires);
    case DoRevokeInvitation(org, id, actor, now) => RevokeInvitationKeeps(s, org, id, actor, now);
    case DoDeleteInvitation(org, id, actor, now) => DeleteInvitationKeeps(s, org, id, actor, now);
    case DoAccept(token, account, now) => AcceptInvitationKeeps(s, token, account, now);
    case DoCreateSession(id, user, token, expires, now) => CreateSessionKeeps(s, id, user, token, expires, now);
    case DoRevokeSession(token, now) => RevokeSessionKeeps(s, token, now);
    case DoTryPassword(key, current, hash, rows, now) => TryPasswordKeeps(s, key, current, hash, rows, now);
    case DoSettle(key) => SettleKeeps(s, key);
    case DoPublish(id, home, owner, origin, name, avatar) => UpsertAgentKeeps(s, id, home, owner, origin, name, avatar);
    case DoRegisterNode(owner, home, session, registration, now) =>
      RegisterNodeKeeps(s, owner, home, session, registration, now);
    case DoRevokeNode(owner, home, session, node, now) => RevokeNodeKeeps(s, owner, home, session, node, now);
    case DoPlan(key, plan, rows, now) => UpsertPlanKeeps(s, key, plan, rows, now);
    case DoGrant(user, plan, now) => SetGrantKeeps(s, user, plan, now);
    case DoSubscriptions(plans, grants, rows, now) => SubscriptionsKeep(s, plans, grants, rows, now);
  }

  /** The invariant holds in every state of every run. */
  lemma {:induction false} RunKeeps(states: seq<State>, actions: seq<Action>, i: nat)
    requires Trace(states, actions) && i < |states|
    ensures Inv(states[i])
  {
    hide Inv, Allowed, Step;
    if i > 0 {
      RunKeeps(states, actions, i - 1);
      StepKeeps(states[i - 1], actions[i - 1]);
    }
  }
}
