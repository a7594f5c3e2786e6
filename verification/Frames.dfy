/** Which tables each group of transactions writes. */
module Frames {
  import opened Records
  import opened Schema
  import opened Organizations
  import opened Control
  import Accounts
  import Devices
  import Entitlements
  import InvalidationLog
  import Invitations
  import Preservation
  import Sessions

  /** Set-up writes every table. */
  predicate Founding(a: Action) {
    a.DoCreateOwner? || a.DoImport?
  }

  /** Where set-up starts, and what it leaves apart from accounts and plans. */
  ghost predicate Founded(s: State, t: State, a: Action) {
    && s == EMPTY.(issuedSessions := s.issuedSessions, issuedInvitations := s.issuedInvitations)
    && (a.DoImport? ==> t == Migrated(a.source))
    && (a.DoCreateOwner? ==>
          t == EMPTY.(
            deployment := Some(Deployment(true)), users := t.users, identities := t.identities,
            credentials := t.credentials, access := t.access,
            orgs := map[a.org := Organization(a.name, true)],
            seats := map[Seat(a.org, a.account.user) := Membership(Owner, true, a.now)],
            plans := t.plans, issuedSessions := s.issuedSessions, issuedInvitations := s.issuedInvitations))
  }

  lemma FoundedFrame(s: State, a: Action)
    requires Inv(s) && Founding(a)
    ensures Founded(s, Step(s, a), a) || Step(s, a) == s
  {
    hide Inv, Founded;
    Preservation.BlankWhenRequired(s);
    if a.DoImport? {
      hide Accounts.CreateOwner;
      ImportFrame(s, a.source, a);
    } else {
      hide ImportControl;
      OwnerFrame(s, a);
    }
  }

  lemma ImportFrame(s: State, source: State, a: Action)
    requires a.DoImport? && a.source == source
    requires s.deployment.None? ==>
              s == EMPTY.(issuedSessions := s.issuedSessions, issuedInvitations := s.issuedInvitations)
    ensures var tx := ImportControl(s, source);
            tx.Commit? ==> Founded(s, tx.state, a)
  {
    hide TextsFit;
  }

  lemma OwnerFrame(s: State, a: Action)
    requires a.DoCreateOwner? && (Accounts.SetupRequired(s) <==> s.deployment.None?)
    requires s.deployment.None? ==>
              s == EMPTY.(issuedSessions := s.issuedSessions, issuedInvitations := s.issuedInvitations)
    ensures var tx := Accounts.CreateOwner(s, a.account, a.org, a.name, a.now);
            tx.Commit? ==> Founded(s, tx.state, a)
  {
    hide Accounts.AccountAllowed, Accounts.SetupRequired, Accounts.DefaultPlans;
  }

  predicate AccountAction(a: Action) {
    a.DoRegister? || a.DoCreateMember? || a.DoUpdateAccess? || a.DoUpdateAvatar?
  }

  predicate InvitationAction(a: Action) {
    a.DoInvite? || a.DoRevokeInvitation? || a.DoDeleteInvitation?
  }

  predicate SessionAction(a: Action) {
    a.DoCreateSession? || a.DoRevokeSession? || a.DoTryPassword? || a.DoSettle?
  }

  predicate DeviceAction(a: Action) {
    a.DoPublish? || a.DoRegisterNode? || a.DoRevokeNode?
  }

  predicate BillingAction(a: Action) {
    a.DoPlan? || a.DoGrant? || a.DoSubscriptions?
  }

  ghost predicate AccountsOnly(s: State, t: State) {
    t == s.(users := t.users, identities := t.identities, credentials := t.credentials, access := t.access,
      sessions := t.sessions, log := t.log)
  }

  lemma NothingWritten(s: State)
    ensures AccountsOnly(s, s) && DevicesOnly(s, s) && OrganizationsOnly(s, s) && JoinOnly(s, s)
  {
  }

  lemma NewAccountFrame(s: State, a: Accounts.NewAccount, role: Role, webDisabled: bool, now: Time)
    ensures AccountsOnly(s, Accounts.AddAccount(s, a, role, webDisabled, now))
         && Accounts.AddAccount(s, a, role, webDisabled, now).sessions == s.sessions
  {
  }

  lemma ChangeAccessFrame(s: State, user: Id, next: Change, now: Time)
    requires user in s.users && user in s.access
    ensures AccountsOnly(s, Accounts.ChangeAccess(s, user, next, now))
  {
    hide RenamedUsers, Accounts.AccessLog, Accounts.RevokeSessionsOf;
  }

  lemma AvatarFrame(s: State, user: Id, avatar: string, now: Time)
    ensures var t := Accounts.UpdateAvatar(s, user, avatar, now).After(s);
            AccountsOnly(s, t) && t.sessions == s.sessions
  {
    hide ProfileLog;
  }

  lemma AccountFrame(s: State, a: Action)
    requires AccountAction(a)
    ensures AccountsOnly(s, Step(s, a))
    ensures !a.DoUpdateAccess? ==> Step(s, a).sessions == s.sessions
  {
    hide AccountsOnly, Administers, UsernameTaken, Accounts.AddAccount, Accounts.ChangeAccess, Accounts.UpdateAvatar,
      Accounts.AccessVersion;
    NothingWritten(s);
    if a.DoRegister? {
      NewAccountFrame(s, a.account, Member, false, a.now);
    } else if a.DoCreateMember? {
      NewAccountFrame(s, a.account, a.role, false, a.now);
    } else if a.DoUpdateAvatar? {
      AvatarFrame(s, a.user, a.avatar, a.now);
    } else if Execute(s, a).Commit? {
      ChangeAccessFrame(s, a.user, a.next, a.now);
    }
  }

  ghost predicate InvitationsOnly(s: State, t: State) {
    t == s.(invitations := t.invitations, issuedInvitations := t.issuedInvitations)
  }

  lemma CreateInvitationFrame(s: State, id: Id, org: Id, token: Id, role: Role, creator: Id, expires: Time)
    ensures InvitationsOnly(s, Invitations.CreateInvitation(s, id, org, token, role, creator, expires).After(s))
  {
    hide Manages;
  }

  lemma RevokeInvitationFrame(s: State, org: Id, id: Id, actor: Id, now: Time)
    ensures InvitationsOnly(s, Invitations.RevokeInvitation(s, org, id, actor, now).After(s))
  {
    hide Manages, Open;
  }

  lemma DeleteInvitationFrame(s: State, org: Id, id: Id, actor: Id, now: Time)
    ensures InvitationsOnly(s, Invitations.DeleteInvitation(s, org, id, actor, now).After(s))
  {
    hide Manages, Invitations.Terminal;
  }

  lemma InvitationFrame(s: State, a: Action)
    requires InvitationAction(a)
    ensures InvitationsOnly(s, Step(s, a))
  {
    hide Invitations.CreateInvitation, Invitations.RevokeInvitation, Invitations.DeleteInvitation, InvitationsOnly;
    if a.DoInvite? {
      CreateInvitationFrame(s, a.id, a.org, a.token, a.role, a.actor, a.expires);
    } else if a.DoRevokeInvitation? {
      RevokeInvitationFrame(s, a.org, a.id, a.actor, a.now);
    } else {
      DeleteInvitationFrame(s, a.org, a.id, a.actor, a.now);
    }
  }

  ghost predicate SessionsOnly(s: State, t: State) {
    t == s.(users := t.users, credentials := t.credentials, sessions := t.sessions, nodes := t.nodes,
      receipts := t.receipts,
            issuedSessions := t.issuedSessions, log := t.log)
  }

  lemma CreateSessionFrame(s: State, id: Id, user: Id, token: Id, expires: Time, now: Time)
    ensures SessionsOnly(s, Sessions.CreateSession(s, id, user, token, expires, now).After(s))
  {
    hide Sessions.DeadSessions;
  }

  lemma RevokeSessionFrame(s: State, token: Id, now: Time)
    ensures SessionsOnly(s, Sessions.RevokeSession(s, token, now).After(s))
  {
    hide InvalidationLog.Append;
  }

  lemma PasswordFrame(s: State, key: Request, current: Hash, next: Hash, rows: seq<Id>, now: Time)
    ensures SessionsOnly(s, Sessions.TryCommitPassword(s, key, current, next, rows, now).After(s))
    ensures SessionsOnly(s, Sessions.SettlePassword(s, key).After(s))
  {
    hide InvalidationLog.ForNodes, Sessions.RevokeNodesOf;
  }

  lemma SessionFrame(s: State, a: Action)
    requires SessionAction(a)
    ensures SessionsOnly(s, Step(s, a))
  {
    hide SessionsOnly, Sessions.CreateSession, Sessions.RevokeSession, Sessions.TryCommitPassword,
      Sessions.SettlePassword;
    if a.DoCreateSession? {
      CreateSessionFrame(s, a.id, a.user, a.token, a.expires, a.now);
    } else if a.DoRevokeSession? {
      RevokeSessionFrame(s, a.token, a.now);
    } else if a.DoTryPassword? {
      PasswordFrame(s, a.key, a.current, a.hash, a.rows, a.now);
    } else {
      PasswordFrame(s, a.key, Hash("", 0), Hash("", 0), [], 0);
    }
  }

  ghost predicate DevicesOnly(s: State, t: State) {
    t == s.(agents := t.agents, nodes := t.nodes, log := t.log)
  }

  lemma PublishFrame(s: State, id: Id, org: Option<Id>, owner: Id, source: Id, name: string, avatar: string)
    ensures DevicesOnly(s, Devices.UpsertAgent(s, id, org, owner, source, name, avatar).After(s))
  {
    hide Standing, Devices.PutAgent;
  }

  ghost predicate NodesOnly(s: State, t: State) {
    t == s.(nodes := t.nodes)
  }

  lemma RegisterNodeFrame(s: State, owner: Id, org: Option<Id>, session: Id, r: Devices.Registration, now: Time)
    ensures NodesOnly(s, Devices.RegisterNode(s, owner, org, session, r, now).After(s))
  {
    hide LiveSession, LiveAgent, Devices.CredentialTaken, Devices.SameNode, Devices.NewNode;
  }

  lemma RevokeNodeFrame(s: State, owner: Id, org: Option<Id>, session: Id, node: Id, now: Time)
    ensures DevicesOnly(s, Devices.RevokeNode(s, owner, org, session, node, now).After(s))
    ensures Devices.RevokeNode(s, owner, org, session, node, now).After(s).agents == s.agents
  {
    hide LiveSession, DevicesOnly, Notify;
    NothingWritten(s);
    if node in s.nodes {
      RevokedRowFrame(s, s.nodes[node := s.nodes[node].(revoked := true)], Sessions.NodeDraft(owner, node, now));
    } else if org.Some? {
      NodesFrame(s, s.nodes[node := Devices.TombstoneNode(owner, org.value, session, node, now)]);
    }
  }

  lemma RevokedRowFrame(s: State, nodes: map<Id, Node>, body: Draft)
    ensures DevicesOnly(s, Notify(s.(nodes := nodes), body)) && Notify(s.(nodes := nodes), body).agents == s.agents
  {
  }

  lemma NodesFrame(s: State, nodes: map<Id, Node>)
    ensures DevicesOnly(s, s.(nodes := nodes)) && s.(nodes := nodes).agents == s.agents
  {
  }

  ghost predicate ReceiptsOnly(s: State, t: State) {
    t == s.(receipts := t.receipts)
  }

  ghost predicate AgentsOnly(s: State, t: State) {
    t == s.(agents := t.agents)
  }

  lemma SettleFrame(s: State, a: Action)
    requires a.DoSettle?
    ensures ReceiptsOnly(s, Step(s, a))
  {
  }

  lemma PublishedFrame(s: State, a: Action)
    requires a.DoPublish?
    ensures AgentsOnly(s, Step(s, a))
  {
    hide Standing, Devices.PutAgent;
  }

  lemma DeviceFrame(s: State, a: Action)
    requires DeviceAction(a)
    ensures DevicesOnly(s, Step(s, a))
    ensures !a.DoPublish? ==> Step(s, a).agents == s.agents
  {
    hide Devices.UpsertAgent, Devices.RegisterNode, Devices.RevokeNode;
    if a.DoPublish? {
      PublishFrame(s, a.id, a.home, a.owner, a.origin, a.name, a.avatar);
    } else if a.DoRegisterNode? {
      RegisterNodeFrame(s, a.owner, a.home, a.session, a.registration, a.now);
    } else {
      RevokeNodeFrame(s, a.owner, a.home, a.session, a.node, a.now);
    }
  }

  ghost predicate BillingOnly(s: State, t: State) {
    t == s.(plans := t.plans, grants := t.grants, log := t.log)
  }

  lemma UpsertPlanFrame(s: State, key: string, plan: Plan, rows: seq<Id>, now: Time)
    ensures BillingOnly(s, Entitlements.UpsertPlan(s, key, plan, rows, now).After(s))
  {
    hide Entitlements.PlanAllowed, InvalidationLog.ForUsers;
  }

  lemma SetGrantFrame(s: State, user: Id, key: string, now: Time)
    ensures BillingOnly(s, Entitlements.SetGrant(s, user, key, now).After(s))
  {
    hide PlanKey, InvalidationLog.Append;
  }

  lemma SubscriptionsFrame(s: State, plans: seq<Entitlements.PlanRow>, grants: seq<Entitlements.GrantRow>,
      rows: seq<Id>, now: Time)
    ensures BillingOnly(s, Entitlements.ImportSubscriptions(s, plans, grants, rows, now).After(s))
  {
    hide Entitlements.PlanAllowed, InvalidationLog.ForUsers, Put, Entitlements.GrantFault;
  }

  lemma BillingFrame(s: State, a: Action)
    requires BillingAction(a)
    ensures BillingOnly(s, Step(s, a))
  {
    hide BillingOnly, Entitlements.UpsertPlan, Entitlements.SetGrant, Entitlements.ImportSubscriptions;
    if a.DoPlan? {
      UpsertPlanFrame(s, a.key', a.plan, a.rows, a.now);
    } else if a.DoGrant? {
      SetGrantFrame(s, a.user, a.plan', a.now);
    } else {
      SubscriptionsFrame(s, a.plans, a.grants, a.rows, a.now);
    }
  }

  ghost predicate OrganizationsOnly(s: State, t: State) {
    t == s.(orgs := t.orgs, seats := t.seats, agents := t.agents, nodes := t.nodes, log := t.log)
  }

  lemma HomeFrame(s: State, actor: Id, org: Id, command: Command, now: Time)
    requires Seat(org, actor) in s.seats && org in s.orgs
    ensures OrganizationsOnly(s, MutateHome(s, actor, org, command, now).After(s))
  {
    hide InvalidationLog.ForUsers, InvalidationLog.Append, RevokeSeats, RevokeAgents, RevokeNodes, HasAccess;
  }

  ghost predicate JoinOnly(s: State, t: State) {
    t == s.(seats := t.seats, invitations := t.invitations, log := t.log)
  }

  lemma JoinFrame(s: State, actor: Id, token: Id, now: Time)
    ensures JoinOnly(s, JoinByToken(s, actor, token, now).After(s))
  {
    hide InvalidationLog.Append, Open, ActiveOrg;
  }

  lemma FoundFrame(s: State, org: Id, name: string, actor: Id, now: Time)
    ensures OrganizationsOnly(s, Notify(Found(s, org, name, actor, now), OrgDraft(actor, org, false, now)))
  {
    hide InvalidationLog.Append;
  }

  lemma MutateFrame(s: State, actor: Id, home: Option<Id>, command: Command, now: Time)
    requires !command.Join?
    ensures OrganizationsOnly(s, Mutate(s, actor, home, command, now).After(s))
  {
    hide Working, HasOrg, MutateHome, JoinByToken, Found, Notify, OrganizationsOnly, HasAccess;
    NothingWritten(s);
    if command.Create? {
      FoundFrame(s, command.org, command.name, actor, now);
    } else if home.Some? && InOrg(s, home.value, actor) {
      HomeFrame(s, actor, home.value, command, now);
    }
  }

  ghost predicate SeatsOnly(s: State, t: State) {
    t == s.(users := t.users, seats := t.seats, agents := t.agents, nodes := t.nodes, log := t.log)
  }

  lemma UpdateMemberFrame(s: State, a: Action)
    requires a.DoUpdateMember?
    ensures SeatsOnly(s, Step(s, a))
  {
    hide Manages, SeatLog, RenamedUsers, RevokeAgents, RevokeNodes;
  }

  ghost predicate AcceptOnly(s: State, t: State) {
    t == s.(users := t.users, identities := t.identities, credentials := t.credentials, access := t.access,
      seats := t.seats, invitations := t.invitations)
  }

  lemma AcceptFrame(s: State, a: Action)
    requires a.DoAccept?
    ensures AcceptOnly(s, Step(s, a))
  {
    hide Open, ActiveOrg, UsernameTaken;
  }

  lemma CommandFrame(s: State, a: Action)
    requires a.DoMutate? && !a.command.Join?
    ensures OrganizationsOnly(s, Step(s, a))
  {
    hide Mutate, OrganizationsOnly;
    MutateFrame(s, a.actor, a.home, a.command, a.now);
  }

  lemma DeploymentFrame(s: State, a: Action)
    requires !Founding(a)
    ensures Step(s, a).deployment == s.deployment
  {
    var t := Step(s, a);
    hide Step, Execute, AccountsOnly, InvitationsOnly, SessionsOnly, DevicesOnly, BillingOnly, AcceptOnly,
      MembershipsOnly;
    if AccountAction(a) {
      AccountFrame(s, a);
    } else if InvitationAction(a) {
      InvitationFrame(s, a);
    } else if SessionAction(a) {
      SessionFrame(s, a);
    } else if DeviceAction(a) {
      DeviceFrame(s, a);
    } else if BillingAction(a) {
      BillingFrame(s, a);
    } else if a.DoAccept? {
      AcceptFrame(s, a);
    } else {
      MembershipFrame(s, a);
    }
    SameDeployment(s, t);
  }

  lemma SameDeployment(s: State, t: State)
    requires AccountsOnly(s, t) || InvitationsOnly(s, t) || SessionsOnly(s, t) || DevicesOnly(s, t) || BillingOnly(s, t)
          || AcceptOnly(s, t) || MembershipsOnly(s, t)
    ensures t.deployment == s.deployment
  {
    hide AccountsOnly, InvitationsOnly, SessionsOnly, DevicesOnly, BillingOnly, AcceptOnly, MembershipsOnly;
    if AccountsOnly(s, t) {
      AccountsRest(s, t);
    } else if InvitationsOnly(s, t) {
      InvitationsRest(s, t);
    } else if SessionsOnly(s, t) {
      SessionsRest(s, t);
    } else if DevicesOnly(s, t) {
      DevicesRest(s, t);
    } else if BillingOnly(s, t) {
      BillingRest(s, t);
    } else if AcceptOnly(s, t) {
      AcceptRest(s, t);
    } else {
      MembershipsRest(s, t);
    }
  }

  /** Organization commands and member updates together. */
  ghost predicate MembershipsOnly(s: State, t: State) {
    t == s.(users := t.users, orgs := t.orgs, seats := t.seats, invitations := t.invitations, agents := t.agents,
      nodes := t.nodes, log := t.log)
  }

  lemma OrganizationsWidened(s: State, t: State)
    requires OrganizationsOnly(s, t)
    ensures MembershipsOnly(s, t)
  {
  }

  lemma JoinWidened(s: State, t: State)
    requires JoinOnly(s, t)
    ensures MembershipsOnly(s, t)
  {
  }

  lemma SeatsWidened(s: State, t: State)
    requires SeatsOnly(s, t)
    ensures MembershipsOnly(s, t)
  {
  }

  lemma MembershipFrame(s: State, a: Action)
    requires a.DoUpdateMember? || a.DoMutate?
    ensures MembershipsOnly(s, Step(s, a))
  {
    hide Step, Execute, OrganizationsOnly, JoinOnly, SeatsOnly, MembershipsOnly;
    if a.DoUpdateMember? {
      UpdateMemberFrame(s, a);
      SeatsWidened(s, Step(s, a));
    } else if a.command.Join? {
      JoinedFrame(s, a);
      JoinWidened(s, Step(s, a));
    } else {
      CommandFrame(s, a);
      OrganizationsWidened(s, Step(s, a));
    }
  }

  lemma JoinedFrame(s: State, a: Action)
    requires a.DoMutate? && a.command.Join?
    ensures JoinOnly(s, Step(s, a))
  {
    hide Working, HasOrg, JoinByToken, JoinOnly;
    JoinFrame(s, a.actor, a.command.token, a.now);
    NothingWritten(s);
  }

  // ---- the tables each group leaves alone ---------------------------------------------

  lemma AccountsRest(s: State, t: State)
    requires AccountsOnly(s, t)
    ensures t.deployment == s.deployment && t.orgs == s.orgs && t.seats == s.seats && t.invitations == s.invitations
         && t.agents == s.agents && t.nodes == s.nodes
    ensures t.receipts == s.receipts && t.issuedSessions == s.issuedSessions
         && t.issuedInvitations == s.issuedInvitations
    ensures t.plans == s.plans
  {
  }

  lemma InvitationsRest(s: State, t: State)
    requires InvitationsOnly(s, t)
    ensures t.deployment == s.deployment && t.access == s.access && t.orgs == s.orgs && t.seats == s.seats
         && t.sessions == s.sessions && t.agents == s.agents
    ensures t.nodes == s.nodes && t.receipts == s.receipts && t.credentials == s.credentials
         && t.issuedSessions == s.issuedSessions
    ensures t.users == s.users && t.plans == s.plans
    ensures t.identities == s.identities
  {
  }

  lemma SessionsRest(s: State, t: State)
    requires SessionsOnly(s, t)
    ensures t.deployment == s.deployment && t.access == s.access && t.orgs == s.orgs && t.seats == s.seats
         && t.invitations == s.invitations && t.agents == s.agents
    ensures t.issuedInvitations == s.issuedInvitations
    ensures t.plans == s.plans
    ensures t.identities == s.identities
  {
  }

  lemma DevicesRest(s: State, t: State)
    requires DevicesOnly(s, t)
    ensures t.deployment == s.deployment && t.access == s.access && t.orgs == s.orgs && t.seats == s.seats
         && t.invitations == s.invitations && t.sessions == s.sessions
    ensures t.receipts == s.receipts && t.credentials == s.credentials && t.issuedSessions == s.issuedSessions
         && t.issuedInvitations == s.issuedInvitations
    ensures t.users == s.users && t.plans == s.plans
    ensures t.identities == s.identities
  {
  }

  lemma BillingRest(s: State, t: State)
    requires BillingOnly(s, t)
    ensures t.deployment == s.deployment && t.access == s.access && t.orgs == s.orgs && t.seats == s.seats
         && t.invitations == s.invitations && t.sessions == s.sessions
    ensures t.agents == s.agents && t.nodes == s.nodes && t.receipts == s.receipts && t.credentials == s.credentials
         && t.issuedSessions == s.issuedSessions && t.issuedInvitations == s.issuedInvitations
    ensures t.users == s.users
    ensures t.identities == s.identities
  {
  }

  lemma AcceptRest(s: State, t: State)
    requires AcceptOnly(s, t)
    ensures t.deployment == s.deployment && t.orgs == s.orgs && t.sessions == s.sessions && t.agents == s.agents
         && t.nodes == s.nodes && t.receipts == s.receipts
    ensures t.issuedSessions == s.issuedSessions && t.issuedInvitations == s.issuedInvitations
    ensures t.plans == s.plans
  {
  }

  lemma MembershipsRest(s: State, t: State)
    requires MembershipsOnly(s, t)
    ensures t.deployment == s.deployment && t.access == s.access && t.sessions == s.sessions && t.receipts == s.receipts
         && t.credentials == s.credentials && t.issuedSessions == s.issuedSessions
    ensures t.issuedInvitations == s.issuedInvitations
    ensures t.plans == s.plans
    ensures t.identities == s.identities
  {
  }

  lemma SeatsRest(s: State, t: State)
    requires SeatsOnly(s, t)
    ensures t.deployment == s.deployment && t.access == s.access && t.orgs == s.orgs && t.invitations == s.invitations
         && t.sessions == s.sessions && t.receipts == s.receipts
    ensures t.credentials == s.credentials && t.issuedSessions == s.issuedSessions
         && t.issuedInvitations == s.issuedInvitations
    ensures t.plans == s.plans
    ensures t.identities == s.identities
  {
  }

  lemma JoinRest(s: State, t: State)
    requires JoinOnly(s, t)
    ensures t.users == s.users && t.plans == s.plans
    ensures t.identities == s.identities
  {
  }

  lemma OrganizationsRest(s: State, t: State)
    requires OrganizationsOnly(s, t)
    ensures t.deployment == s.deployment && t.access == s.access && t.invitations == s.invitations
         && t.sessions == s.sessions && t.receipts == s.receipts && t.credentials == s.credentials
    ensures t.issuedSessions == s.issuedSessions && t.issuedInvitations == s.issuedInvitations
    ensures t.users == s.users && t.plans == s.plans
    ensures t.identities == s.identities
  {
  }

  lemma ReceiptsRest(s: State, t: State)
    requires ReceiptsOnly(s, t)
    ensures t.deployment == s.deployment && t.access == s.access && t.orgs == s.orgs && t.seats == s.seats
         && t.invitations == s.invitations && t.sessions == s.sessions
    ensures t.agents == s.agents && t.nodes == s.nodes && t.credentials == s.credentials
         && t.issuedSessions == s.issuedSessions && t.issuedInvitations == s.issuedInvitations
    ensures t.users == s.users && t.plans == s.plans
    ensures t.identities == s.identities
  {
  }

  lemma AgentsRest(s: State, t: State)
    requires AgentsOnly(s, t)
    ensures t.deployment == s.deployment && t.access == s.access && t.orgs == s.orgs && t.seats == s.seats
         && t.invitations == s.invitations && t.sessions == s.sessions
    ensures t.nodes == s.nodes && t.receipts == s.receipts && t.credentials == s.credentials
         && t.issuedSessions == s.issuedSessions && t.issuedInvitations == s.issuedInvitations
    ensures t.users == s.users && t.plans == s.plans
    ensures t.identities == s.identities
  {
  }
}
