/**
 What a registered device may do, over whole runs: when its credential can be
 exchanged, and that losing it is never silent.
 */
module Machines {
  import opened Records
  import opened InvalidationLog
  import opened Schema
  import opened Organizations
  import opened Control
  import opened Frames
  import Accounts
  import Coherence
  import Devices
  import Preservation
  import Sessions

  // ---- the exchange -------------------------------------------------------------

  /** Every check of `ExchangeNodeTokenWithDirectory` on the row found by credential. */
  predicate ExchangeAdmits(s: State, n: Id) {
    && n in s.nodes && !s.nodes[n].revoked
    && var node := s.nodes[n];
    && node.session in s.sessions && s.sessions[node.session].user == node.owner && !s.sessions[node.session].revoked
    && Working(s, node.owner)
    && InOrg(s, node.org, node.owner)
    && 0 < |node.agents| <= MAX_VERIFIED_AGENTS
    && forall a <- node.agents :: LiveAgent(s, a, node.org, node.owner)
  }

  /** The few facts that decide it. */
  predicate Granted(s: State, n: Id) {
    && n in s.nodes && !s.nodes[n].revoked
    && s.nodes[n].session in s.sessions && !s.sessions[s.nodes[n].session].revoked
    && Working(s, s.nodes[n].owner)
  }

  lemma AgentSeat(s: State, a: Id)
    requires Inv(s) && a in s.agents && s.agents[a].active
    ensures InOrg(s, s.agents[a].org, s.agents[a].owner)
  {
    hide AccountsFit, InvitationsFit, SessionsFit, NodesFit, NodesBacked, PlansFit, ReceiptsFit, SetupFits, Ordered,
      OneActiveSeat, OneOwner, HasOwner;
  }

  /** The later organization and agent checks follow from what every transaction keeps. */
  lemma ExchangeDecided(s: State, n: Id)
    requires Inv(s)
    ensures ExchangeAdmits(s, n) <==> Granted(s, n)
  {
    hide Inv;
    if Granted(s, n) {
      var node := s.nodes[n];
      Preservation.NodeOf(s, n);
      assert node.agents[0] in node.agents && OwnsAgent(s.agents, node.agents[0], node.org, node.owner);
      AgentSeat(s, node.agents[0]);
      forall a | a in node.agents
        ensures LiveAgent(s, a, node.org, node.owner)
      {
        var i :| 0 <= i < |node.agents| && node.agents[i] == a;
        assert OwnsAgent(s.agents, node.agents[i], node.org, node.owner);
      }
    }
  }

  // ---- losing a grant ---------------------------------------------------------------

  /** The log grows at its end, and without an event for the owner a grant stays. */
  ghost predicate Held(s: State, t: State, n: Id) {
    && s.log <= t.log
    && (Granted(s, n) && Quiet(t.log, |s.log|, s.nodes[n].owner) ==>
          Granted(t, n) && t.nodes[n].owner == s.nodes[n].owner && t.nodes[n].session == s.nodes[n].session)
  }

  lemma EvictHeld(s: State, org: Id, rows: seq<Id>, now: Time, n: Id)
    requires Ordered(s.log)
    ensures Held(s, Evict(s, org, rows, now), n)
  {
    hide Quiet, RevokeSeats, RevokeAgents, Ordered;
    Coherence.ForUsersQuiet(s.log, rows, OrgDraft(0, org, true, now), if n in s.nodes then s.nodes[n].owner else 0);
    hide ForUsers;
  }

  lemma DissolveHeld(s: State, org: Id, rows: seq<Id>, now: Time, n: Id)
    requires Ordered(s.log) && org in s.orgs
    ensures var out := Evict(s, org, rows, now);
            Held(s, out.(orgs := out.orgs[org := out.orgs[org].(active := false)]), n)
  {
    hide Quiet, Ordered, Evict;
    EvictHeld(s, org, rows, now, n);
    EvictKeepsOrgs(s, org, rows, now);
  }

  lemma EvictKeepsOrgs(s: State, org: Id, rows: seq<Id>, now: Time)
    ensures org in s.orgs ==> org in Evict(s, org, rows, now).orgs
  {
  }

  lemma RenameHeld(s: State, org: Id, name: string, rows: seq<Id>, now: Time, n: Id)
    requires Ordered(s.log) && org in s.orgs
    ensures Held(s, s.(orgs := s.orgs[org := s.orgs[org].(name := name)],
              log := ForUsers(s.log, rows, OrgDraft(0, org, false, now))), n)
  {
    hide Quiet;
    ForUsersShape(s.log, rows, OrgDraft(0, org, false, now));
    hide ForUsers, Ordered;
  }

  lemma MutateHeld(s: State, actor: Id, home: Option<Id>, command: Command, now: Time, n: Id)
    requires Inv(s)
    ensures Held(s, Mutate(s, actor, home, command, now).After(s), n)
  {
    hide Inv, HasOrg, Open, Held, Ordered, OneActiveSeat, OneOwner, ForUsers, HasAccess, Evict, ActiveOrg;
    Coherence.SeatsOf(s);
    HeldRefl(s, n);
    if Mutate(s, actor, home, command, now).Commit? {
      match command
      case Create(org, name) => FoundHeld(s, org, name, actor, now, n);
      case Join(token) => JoinHeld(s, InvitationByToken(s.invitations, token).value, actor, now, n);
      case Leave => EvictHeld(s, home.value, [actor], now, n);
      case Transfer(target) => TransferHeld(s, home.value, actor, target, now, n);
      case Rename(name, rows) => RenameHeld(s, home.value, name, rows, now, n);
      case Dissolve(rows) => DissolveHeld(s, home.value, rows, now, n);
    }
  }

  lemma HeldRefl(s: State, n: Id)
    ensures Held(s, s, n)
  {
  }

  lemma FoundHeld(s: State, org: Id, name: string, actor: Id, now: Time, n: Id)
    ensures Held(s, Notify(Found(s, org, name, actor, now), OrgDraft(actor, org, false, now)), n)
  {
    hide Quiet;
  }

  lemma JoinHeld(s: State, i: Id, actor: Id, now: Time, n: Id)
    requires i in s.invitations
    ensures var inv := s.invitations[i];
            Held(s, Notify(Accept(Enter(s, inv.org, actor, inv.role, now), i, actor, now),
              OrgDraft(actor, inv.org, false, now)), n)
  {
    hide Quiet;
  }

  lemma TransferHeld(s: State, org: Id, owner: Id, target: Id, now: Time, n: Id)
    requires Seat(org, owner) in s.seats && Seat(org, target) in s.seats
    ensures Held(s, Notify(Notify(Handover(s, org, owner, target, now), OrgDraft(target, org, false, now)),
              OrgDraft(owner, org, false, now)), n)
  {
    hide Quiet;
  }

  lemma RenamedActive(users: map<Id, User>, who: Id, name: string, now: Time)
    requires who in users
    ensures forall u :: u in users ==>
              && u in RenamedUsers(users, who, name, now)
              && RenamedUsers(users, who, name, now)[u].active == users[u].active
  {
  }

  lemma ChangeSeatHeld(s: State, org: Id, who: Id, next: Change, now: Time, n: Id)
    requires who in s.users && who in s.access && ActiveSeat(s.seats, org, who)
    ensures Held(s, ChangeSeat(s, org, who, next, now), n)
  {
    hide Quiet, SeatLog, RenamedUsers, ChangeSeat;
    Coherence.ChangeSeatFrame(s, org, who, next, now);
    Coherence.SeatLogQuiet(s.log, next.name != s.users[who].displayName && s.access[who].active, org, who,
      s.seats[Seat(org, who)].role, next, now, who);
    RenamedActive(s.users, who, next.name, now);
  }

  lemma ChangeAccessHeld(s: State, who: Id, next: Change, now: Time, n: Id)
    requires Inv(s) && who in s.users && who in s.access
    ensures Held(s, Accounts.ChangeAccess(s, who, next, now), n)
  {
    hide Inv, Quiet, Accounts.AccessLog;
    if n in s.nodes {
      Preservation.NodeOf(s, n);
    }
    Coherence.AccessLogQuiet(s.log, next.name != s.users[who].displayName, who, s.access[who], next, now, who);
  }

  /** The purge never takes a session that a live device hangs on, expired or not. */
  lemma PurgeHeld(s: State, now: Time, n: Id)
    requires n in s.nodes && !s.nodes[n].revoked && s.nodes[n].session in s.sessions
    ensures var t := Sessions.Purge(s, now);
            n in t.nodes && t.nodes[n] == s.nodes[n] && s.nodes[n].session in t.sessions
            && t.sessions[s.nodes[n].session] == s.sessions[s.nodes[n].session]
  {
    assert n in s.nodes.Keys && HoldsLiveNode(s.nodes, s.nodes[n].session);
  }

  lemma CreateSessionHeld(s: State, id: Id, who: Id, token: Id, expires: Time, now: Time, n: Id)
    requires Inv(s) && id !in s.issuedSessions
    ensures Held(s, Sessions.CreateSession(s, id, who, token, expires, now).After(s), n)
  {
    hide Inv, Sessions.Purge, Quiet;
    Preservation.PurgeFrame(s, now);
    if Granted(s, n) {
      PurgeHeld(s, now, n);
      IssuedSession(s, s.nodes[n].session);
    }
  }

  lemma IssuedSession(s: State, k: Id)
    requires Inv(s) && k in s.sessions
    ensures k in s.issuedSessions
  {
    hide AccountsFit, InvitationsFit, SeatsFit, AgentsFit, NodesFit, NodesBacked, PlansFit, ReceiptsFit,
      SetupFits, Ordered;
  }

  lemma RevokeSessionHeld(s: State, token: Id, now: Time, n: Id)
    requires Inv(s)
    ensures Held(s, Sessions.RevokeSession(s, token, now).After(s), n)
  {
    hide Inv;
    if n in s.nodes {
      Preservation.NodeOf(s, n);
    }
    var k := SessionByToken(s.sessions, token);
    if k.Some? && !s.sessions[k.value].revoked {
      Coherence.AppendQuiet(s.log,
        Draft(s.sessions[k.value].user, SessionRef(k.value), SessionRevoked, None, false, now),
        s.sessions[k.value].user);
      hide Quiet, Append;
    }
  }

  lemma SwapQuiet(s: State, owner: Id, rows: seq<Id>, now: Time, n: Id)
    requires Ordered(s.log) && Lists(rows, LiveNodesOf(s.nodes, owner))
    ensures var log := ForNodes(s.log, rows, Sessions.NodeDraft(owner, 0, now));
            && s.log <= log
            && (n in s.nodes && !s.nodes[n].revoked && Quiet(log, |s.log|, s.nodes[n].owner) ==>
                  s.nodes[n].owner != owner)
  {
    hide Quiet;
    Coherence.ForNodesQuiet(s.log, rows, Sessions.NodeDraft(owner, 0, now));
    if n in s.nodes && !s.nodes[n].revoked && s.nodes[n].owner == owner {
      assert n in LiveNodesOf(s.nodes, owner) && n in rows && rows != [];
    }
  }

  lemma SwappedHeld(s: State, key: Request, next: Hash, rows: seq<Id>, now: Time, n: Id)
    requires Ordered(s.log) && Lists(rows, LiveNodesOf(s.nodes, key.user))
    ensures Held(s, Sessions.Swapped(s, key, next, rows, now), n)
  {
    hide Quiet, Ordered, Lists, ForNodes;
    SwapQuiet(s, key.user, rows, now, n);
  }

  lemma RegisterNodeHeld(s: State, owner: Id, org: Option<Id>, session: Id, r: Devices.Registration, now: Time, n: Id)
    ensures Held(s, Devices.RegisterNode(s, owner, org, session, r, now).After(s), n)
  {
    hide Quiet, LiveSession, LiveAgent, Devices.NewNode, Devices.SameNode, Devices.CredentialTaken;
  }

  lemma RevokeRowHeld(s: State, node: Id, now: Time, n: Id)
    requires node in s.nodes
    ensures Held(s, Notify(s.(nodes := s.nodes[node := s.nodes[node].(revoked := true)]),
              Sessions.NodeDraft(s.nodes[node].owner, node, now)), n)
  {
    Coherence.AppendQuiet(s.log, Sessions.NodeDraft(s.nodes[node].owner, node, now), s.nodes[node].owner);
    hide Quiet, Append;
  }

  lemma RevokeNodeHeld(s: State, owner: Id, org: Option<Id>, session: Id, node: Id, now: Time, n: Id)
    ensures Held(s, Devices.RevokeNode(s, owner, org, session, node, now).After(s), n)
  {
    hide LiveSession, Append, Quiet, Held;
    HeldRefl(s, n);
    if node in s.nodes {
      RevokeRowHeld(s, node, now, n);
    } else if org.Some? {
      TombstoneHeld(s, node, Devices.TombstoneNode(owner, org.value, session, node, now), n);
    }
  }

  lemma TombstoneHeld(s: State, node: Id, row: Node, n: Id)
    requires node !in s.nodes
    ensures Held(s, s.(nodes := s.nodes[node := row]), n)
  {
    hide Quiet;
  }

  /** The remaining transactions leave every grant as it was. */
  ghost predicate Untouched(s: State, t: State, n: Id) {
    Granted(s, n) ==> Granted(t, n) && t.nodes[n].owner == s.nodes[n].owner && t.nodes[n].session == s.nodes[n].session
  }

  lemma AddAccountUntouched(s: State, a: Accounts.NewAccount, role: Role, webDisabled: bool, now: Time, n: Id)
    requires a.user !in s.users
    ensures Untouched(s, Accounts.AddAccount(s, a, role, webDisabled, now), n)
  {
  }

  lemma AcceptUntouched(s: State, i: Id, a: Accounts.NewAccount, now: Time, n: Id)
    requires a.user !in s.users && i in s.invitations
    ensures var inv := s.invitations[i];
            Untouched(s, Accept(Enter(Accounts.AddAccount(s, a, Member, true, now), inv.org, a.user, inv.role, now), i,
              a.user, now), n)
  {
  }

  lemma UpdateAvatarUntouched(s: State, who: Id, avatar: string, now: Time, n: Id)
    ensures Untouched(s, Accounts.UpdateAvatar(s, who, avatar, now).After(s), n)
  {
    hide ProfileLog;
  }

  lemma SameUntouched(s: State, t: State, n: Id)
    requires t.nodes == s.nodes && t.sessions == s.sessions && t.users == s.users && t.access == s.access
          && t.deployment == s.deployment
    ensures Untouched(s, t, n)
  {
  }

  lemma OthersUntouched(s: State, t: State, n: Id)
    requires BillingOnly(s, t) || InvitationsOnly(s, t) || ReceiptsOnly(s, t) || AgentsOnly(s, t)
    ensures Untouched(s, t, n)
  {
    hide BillingOnly, InvitationsOnly, ReceiptsOnly, AgentsOnly;
    if BillingOnly(s, t) {
      BillingRest(s, t);
    } else if InvitationsOnly(s, t) {
      InvitationsRest(s, t);
    } else if ReceiptsOnly(s, t) {
      ReceiptsRest(s, t);
    } else {
      AgentsRest(s, t);
    }
    SameUntouched(s, t, n);
  }

  lemma QuietUntouched(s: State, a: Action, n: Id)
    requires BillingAction(a) || InvitationAction(a) || a.DoSettle? || a.DoPublish?
    ensures Untouched(s, Step(s, a), n)
  {
    hide Step, Execute, Untouched, BillingOnly, InvitationsOnly, ReceiptsOnly, AgentsOnly;
    if BillingAction(a) {
      BillingFrame(s, a);
    } else if InvitationAction(a) {
      InvitationFrame(s, a);
    } else if a.DoSettle? {
      SettleFrame(s, a);
    } else {
      PublishedFrame(s, a);
    }
    OthersUntouched(s, Step(s, a), n);
  }

  /** On blank tables there is nothing to lose. */
  lemma FoundedUntouched(s: State, t: State, a: Action, n: Id)
    requires Founded(s, t, a)
    ensures Untouched(s, t, n)
  {
  }

  lemma BlankUntouched(s: State, a: Action, n: Id)
    requires Inv(s) && Founding(a)
    ensures Untouched(s, Step(s, a), n)
  {
    hide Inv, Untouched, Step, Execute, Founded;
    UntouchedRefl(s, n);
    FoundedFrame(s, a);
    if Step(s, a) != s {
      FoundedUntouched(s, Step(s, a), a, n);
    }
  }

  lemma StepUntouched(s: State, a: Action, n: Id)
    requires Inv(s) && Allowed(s, a)
    requires !a.DoUpdateAccess? && !a.DoMutate? && !a.DoUpdateMember? && !a.DoCreateSession? && !a.DoRevokeSession?
          && !a.DoTryPassword?
    requires !a.DoRegisterNode? && !a.DoRevokeNode?
    ensures Untouched(s, Step(s, a), n)
  {
    hide Inv, Untouched, Accounts.AddAccount, UsernameTaken, Administers, Accounts.UpdateAvatar, Open, ActiveOrg,
      Accounts.CreateOwner, Migrated, Blank;
    UntouchedRefl(s, n);
    if Founding(a) {
      BlankUntouched(s, a, n);
    } else if a.DoRegister? {
      AddAccountUntouched(s, a.account, Member, false, a.now, n);
    } else if a.DoCreateMember? {
      AddAccountUntouched(s, a.account, a.role, false, a.now, n);
    } else if a.DoUpdateAvatar? {
      UpdateAvatarUntouched(s, a.user, a.avatar, a.now, n);
    } else if a.DoAccept? {
      if Execute(s, a).Commit? {
        AcceptUntouched(s, InvitationByToken(s.invitations, a.token).value, a.account, a.now, n);
      }
    } else {
      QuietUntouched(s, a, n);
    }
  }

  lemma UntouchedRefl(s: State, n: Id)
    ensures Untouched(s, s, n)
  {
  }

  lemma StepHeld(s: State, a: Action, n: Id)
    requires Inv(s) && Allowed(s, a)
    ensures Held(s, Step(s, a), n)
  {
    hide Inv, Held, Lists, Accounts.UpdateAvatar, Mutate, Sessions.CreateSession, Sessions.RevokeSession,
      Devices.RevokeNode, Devices.RegisterNode, Admissible, Accounts.ChangeAccess, ChangeSeat,
      Manages, Administers, Coherence.Coherent, Sessions.Swapped, Ordered, OneActiveSeat, OneOwner;
    HeldRefl(s, n);
    Coherence.SeatsOf(s);
    match a
    case DoUpdateAccess(who, actor, expected, next, now) =>
      if Execute(s, a).Commit? {
        ChangeAccessHeld(s, who, next, now, n);
      }
    case DoMutate(actor, home, command, now) => MutateHeld(s, actor, home, command, now, n);
    case DoUpdateMember(org, who, actor, expected, next, now) =>
      if Execute(s, a).Commit? {
        ChangeSeatHeld(s, org, who, next, now, n);
      }
    case DoCreateSession(id, who, token, expires, now) => CreateSessionHeld(s, id, who, token, expires, now, n);
    case DoRevokeSession(token, now) => RevokeSessionHeld(s, token, now, n);
    case DoTryPassword(key, current, hash, rows, now) => SwappedHeld(s, key, hash, rows, now, n);
    case DoRegisterNode(owner, home, session, registration, now) =>
      RegisterNodeHeld(s, owner, home, session, registration, now, n);
    case DoRevokeNode(owner, home, session, node, now) => RevokeNodeHeld(s, owner, home, session, node, now, n);
    case _ =>
      StepUntouched(s, a, n);
      Coherence.StepCoherent(s, a, 0);
      UntouchedHeld(s, Step(s, a), n);
  }

  lemma UntouchedHeld(s: State, t: State, n: Id)
    requires Untouched(s, t, n) && Coherence.Coherent(s, t, 0)
    ensures Held(s, t, n)
  {
    hide Granted, Quiet, Coherence.SameView;
  }

  /** A grant outlives every stretch of a run in which the log says nothing about its owner. */
  lemma {:induction false} GrantsOutlive(states: seq<State>, actions: seq<Action>, i: nat, j: nat, n: Id)
    requires Trace(states, actions) && i <= j < |states|
    requires Granted(states[i], n)
    requires Silent(states[j].log, LatestId(states[i].log), states[i].nodes[n].owner)
    ensures Granted(states[j], n)
    ensures states[j].nodes[n].owner == states[i].nodes[n].owner
         && states[j].nodes[n].session == states[i].nodes[n].session
    decreases j - i
  {
    hide Inv, Allowed, Step, Silent, Quiet, Working;
    if i < j {
      var s, t := states[j - 1], states[j];
      Preservation.RunKeeps(states, actions, j - 1);
      Preservation.RunKeeps(states, actions, j);
      Coherence.LogGrows(states, actions, i, j - 1);
      StepHeld(s, actions[j - 1], n);
      Coherence.AccountOf(t, 0);
      Coherence.SilentSplit(states[i].log, s.log, t.log, states[i].nodes[n].owner);
      GrantsOutlive(states, actions, i, j - 1, n);
    }
  }

  /**
   Main result. A device that could exchange its credential at one state of a run and
   cannot at a later one was announced: behind the first state's cursor the log names
   its owner.
   */
  lemma NoSilentLoss(states: seq<State>, actions: seq<Action>, i: nat, j: nat, n: Id)
    requires Trace(states, actions) && i <= j < |states|
    requires ExchangeAdmits(states[i], n) && !ExchangeAdmits(states[j], n)
    ensures !Silent(states[j].log, LatestId(states[i].log), states[i].nodes[n].owner)
  {
    hide Inv, Allowed, Step, ExchangeAdmits, Silent, Working;
    Preservation.RunKeeps(states, actions, i);
    Preservation.RunKeeps(states, actions, j);
    ExchangeDecided(states[i], n);
    ExchangeDecided(states[j], n);
    if Silent(states[j].log, LatestId(states[i].log), states[i].nodes[n].owner) {
      GrantsOutlive(states, actions, i, j, n);
    }
  }
}
