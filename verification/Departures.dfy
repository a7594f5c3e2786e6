/**
 Leaving and dissolution: what a lost seat takes along for good, and what the log says.
 */
module Departures {
  import opened Records
  import opened Schema
  import opened Organizations
  import opened Control
  import opened Frames
  import Coherence
  import Devices
  import Fences
  import InvalidationLog
  import Machines
  import OrganizationInvariant
  import Preservation

  // ---- machines of a lost seat --------------------------------------------------------

  /** Without the seat every device of the pair is revoked, so its grant is fenced. */
  lemma NoSeatNoDevice(s: State, n: Id)
    requires Inv(s) && n in s.nodes && !ActiveSeat(s.seats, s.nodes[n].org, s.nodes[n].owner)
    ensures s.nodes[n].revoked && Fences.Fenced(s, n, s.nodes[n].session)
  {
    hide Inv;
    Preservation.NodeOf(s, n);
    var node := s.nodes[n];
    Machines.IssuedSession(s, node.session);
    if !node.revoked {
      assert OwnsAgent(s.agents, node.agents[0], node.org, node.owner);
      Machines.AgentSeat(s, node.agents[0]);
    }
  }

  lemma {:induction false} GrantStays(states: seq<State>, actions: seq<Action>, i: nat, j: nat, n: Id)
    requires Trace(states, actions) && i <= j < |states|
    requires n in states[i].nodes && states[i].nodes[n].session in states[j].sessions
    ensures n in states[j].nodes && Fences.SameGrant(states[i].nodes[n], states[j].nodes[n])
    decreases j - i
  {
    hide Inv, Allowed, Step;
    Preservation.RunKeeps(states, actions, i);
    Preservation.NodeOf(states[i], n);
    Machines.IssuedSession(states[i], states[i].nodes[n].session);
    if i < j {
      SessionsShrink(states, actions, i, j - 1, states[i].nodes[n].session);
      Preservation.RunKeeps(states, actions, j - 1);
      Fences.StepFencing(states[j - 1], actions[j - 1], n, states[i].nodes[n].session);
      GrantStays(states, actions, i, j - 1, n);
    }
  }

  lemma {:induction false} SessionsShrink(states: seq<State>, actions: seq<Action>, i: nat, j: nat, k: Id)
    requires Trace(states, actions) && i <= j < |states| && k in states[i].issuedSessions
    ensures k in states[j].issuedSessions
    ensures k in states[j].sessions ==> k in states[i].sessions
    decreases j - i
  {
    hide Inv, Allowed, Step;
    if i < j {
      SessionsShrink(states, actions, i, j - 1, k);
      Preservation.RunKeeps(states, actions, j - 1);
      Fences.StepFencing(states[j - 1], actions[j - 1], 0, k);
    }
  }

  /**
   Main result. A device registered at state `h` whose owner has lost the seat by state
   `i` is done for: whatever happens later, rejoining included, its id neither registers
   again from that session nor is exchanged under it.
   */
  lemma LeavingIsPermanent(states: seq<State>, actions: seq<Action>, h: nat, i: nat, j: nat, n: Id)
    requires Trace(states, actions) && h <= i <= j < |states| && n in states[h].nodes
    requires !ActiveSeat(states[i].seats, states[h].nodes[n].org, states[h].nodes[n].owner)
    ensures forall owner, org, r: Devices.Registration, now ::
              r.node == n ==> Devices.RegisterNode(states[j], owner, org, states[h].nodes[n].session, r, now).Abort?
    ensures Machines.ExchangeAdmits(states[j], n) ==> states[j].nodes[n].session != states[h].nodes[n].session
  {
    hide Inv, Allowed, Step, Devices.RegisterNode, Machines.ExchangeAdmits;
    var k := states[h].nodes[n].session;
    Preservation.RunKeeps(states, actions, h);
    Preservation.RunKeeps(states, actions, i);
    Preservation.NodeOf(states[h], n);
    Machines.IssuedSession(states[h], k);
    SessionsShrink(states, actions, h, i, k);
    if k in states[i].sessions {
      GrantStays(states, actions, h, i, n);
      NoSeatNoDevice(states[i], n);
    }
    Fences.CancelledForGood(states, actions, i, j, n, k);
  }

  // ---- agents and organizations -----------------------------------------------------------

  /** The published agent of a source, as the only step that can switch it on again. */
  predicate Publishes(a: Action, row: Agent) {
    a.DoPublish? && a.home == Some(row.org) && a.owner == row.owner && a.origin == row.source
  }

  /** Organizations keep their row, disabled ones stay disabled; agents keep their key and
      switch on only by being published. */
  ghost predicate Settling(s: State, t: State, a: Action, org: Id, agent: Id) {
    && (org in s.orgs ==> org in t.orgs && (!s.orgs[org].active ==> !t.orgs[org].active))
    && (agent in s.agents ==>
          && agent in t.agents && SameSource(s.agents[agent], t.agents[agent])
          && (!s.agents[agent].active && t.agents[agent].active ==> Publishes(a, s.agents[agent])))
  }

  lemma SettlingRefl(s: State, t: State, a: Action, org: Id, agent: Id)
    requires t.orgs == s.orgs && t.agents == s.agents
    ensures Settling(s, t, a, org, agent)
  {
  }

  lemma SeatsSettling(s: State, t: State, a: Action, org: Id, agent: Id, home: Id, users: set<Id>)
    requires t.orgs == s.orgs && t.agents == RevokeAgents(s.agents, home, users)
    ensures Settling(s, t, a, org, agent)
  {
  }

  lemma PutAgentSettles(agents: map<Id, Agent>, id: Id, row: Agent, agent: Id)
    requires agent in agents && id !in agents
    ensures var after := Devices.PutAgent(agents, id, row);
            && agent in after && SameSource(agents[agent], after[agent])
            && (after[agent] == agents[agent] || SameSource(agents[agent], row))
  {
  }

  lemma PublishFrame(s: State, t: State, id: Id, home: Id, owner: Id, origin: Id, name: string, avatar: string)
    requires t == Devices.UpsertAgent(s, id, Some(home), owner, origin, name, avatar).After(s)
    ensures t.orgs == s.orgs
    ensures t.agents == s.agents
         || t.agents == Devices.PutAgent(s.agents, id, Agent(home, owner, origin, name, avatar, true))
  {
    hide Standing, Devices.PutAgent;
  }

  lemma PutSettling(s: State, t: State, a: Action, org: Id, agent: Id)
    requires a.DoPublish? && a.id !in s.agents && a.home.Some? && t.orgs == s.orgs
    requires t.agents
          == Devices.PutAgent(s.agents, a.id, Agent(a.home.value, a.owner, a.origin, a.name, a.avatar, true))
    ensures Settling(s, t, a, org, agent)
  {
    hide Devices.PutAgent;
    if agent in s.agents {
      PutAgentSettles(s.agents, a.id, Agent(a.home.value, a.owner, a.origin, a.name, a.avatar, true), agent);
    }
  }

  lemma PublishSettling(s: State, a: Action, org: Id, agent: Id)
    requires a.DoPublish? && a.id !in s.agents
    ensures Settling(
              s, Devices.UpsertAgent(s, a.id, a.home, a.owner, a.origin, a.name, a.avatar).After(s), a, org, agent)
  {
    var t := Devices.UpsertAgent(s, a.id, a.home, a.owner, a.origin, a.name, a.avatar).After(s);
    if a.home.None? {
      assert t == s;
      SettlingRefl(s, t, a, org, agent);
    } else {
      hide Settling, Devices.UpsertAgent, Devices.PutAgent;
      PublishFrame(s, t, a.id, a.home.value, a.owner, a.origin, a.name, a.avatar);
      if t.agents == s.agents {
        SettlingRefl(s, t, a, org, agent);
      } else {
        PutSettling(s, t, a, org, agent);
      }
    }
  }

  lemma OrgSettling(s: State, t: State, a: Action, org: Id, agent: Id, home: Id, row: Organization)
    requires t.agents == s.agents && t.orgs == s.orgs[home := row] && (home in s.orgs ==> s.orgs[home].active)
    ensures Settling(s, t, a, org, agent)
  {
  }

  lemma EvictSettling(s: State, a: Action, org: Id, agent: Id, home: Id, rows: seq<Id>, now: Time)
    ensures Settling(s, Evict(s, home, rows, now), a, org, agent)
  {
    hide InvalidationLog.ForUsers, RevokeSeats, RevokeNodes;
  }

  lemma DissolveSettling(s: State, a: Action, org: Id, agent: Id, home: Id, rows: seq<Id>, now: Time)
    requires home in s.orgs
    ensures var out := Evict(s, home, rows, now);
            && home in out.orgs
            && Settling(s, out.(orgs := out.orgs[home := out.orgs[home].(active := false)]), a, org, agent)
  {
    hide InvalidationLog.ForUsers, RevokeSeats, RevokeNodes;
  }

  lemma RenameSettling(s: State, a: Action, org: Id, agent: Id, home: Id, name: string, log: seq<Event>)
    requires home in s.orgs
    ensures Settling(s, s.(orgs := s.orgs[home := s.orgs[home].(name := name)], log := log), a, org, agent)
  {
  }

  lemma TransferSettling(s: State, a: Action, org: Id, agent: Id, home: Id, owner: Id, target: Id, now: Time)
    requires Seat(home, owner) in s.seats && Seat(home, target) in s.seats
    ensures Settling(s, Notify(Notify(Handover(s, home, owner, target, now), OrgDraft(target, home, false, now)),
              OrgDraft(owner, home, false, now)), a, org, agent)
  {
    hide InvalidationLog.Append;
  }

  lemma HomeSettling(s: State, a: Action, org: Id, agent: Id, actor: Id, home: Id, command: Command, now: Time)
    requires InOrg(s, home, actor)
    ensures Settling(s, MutateHome(s, actor, home, command, now).After(s), a, org, agent)
  {
    hide Settling, HasAccess, InvalidationLog.ForUsers, Evict, Notify, Handover;
    SettlingRefl(s, s, a, org, agent);
    if MutateHome(s, actor, home, command, now).Commit? {
      if command.Leave? {
        EvictSettling(s, a, org, agent, home, [actor], now);
      } else if command.Transfer? {
        TransferSettling(s, a, org, agent, home, actor, command.target, now);
      } else if command.Rename? {
        RenameSettling(s, a, org, agent, home, command.name,
          InvalidationLog.ForUsers(s.log, command.rows, OrgDraft(0, home, false, now)));
      } else if command.Dissolve? {
        DissolveSettling(s, a, org, agent, home, command.rows, now);
      }
    }
  }

  lemma MutateSettling(s: State, a: Action, org: Id, agent: Id)
    requires a.DoMutate? && Admissible(s, a.home, a.command)
    ensures Settling(s, Mutate(s, a.actor, a.home, a.command, a.now).After(s), a, org, agent)
  {
    hide Settling, Working, HasOrg, MutateHome, JoinByToken, HasAccess, InvalidationLog.Append;
    SettlingRefl(s, s, a, org, agent);
    var t := Mutate(s, a.actor, a.home, a.command, a.now).After(s);
    if a.command.Create? {
      if t != s {
        OrgSettling(s, t, a, org, agent, a.command.org, Organization(a.command.name, true));
      }
    } else if a.command.Join? {
      JoinSettling(s, a, org, agent);
    } else if a.home.Some? && InOrg(s, a.home.value, a.actor) {
      HomeSettling(s, a, org, agent, a.actor, a.home.value, a.command, a.now);
    }
  }

  lemma JoinSettling(s: State, a: Action, org: Id, agent: Id)
    requires a.DoMutate? && a.command.Join?
    ensures Settling(s, JoinByToken(s, a.actor, a.command.token, a.now).After(s), a, org, agent)
  {
    hide Open, ActiveOrg, InvalidationLog.Append;
  }

  lemma UpdateMemberSettling(s: State, a: Action, org: Id, agent: Id)
    requires a.DoUpdateMember?
    ensures Settling(s, Step(s, a), a, org, agent)
  {
    hide Settling, Manages, SeatLog, RenamedUsers, RevokeAgents, RevokeNodes;
    var t := Step(s, a);
    SettlingRefl(s, s, a, org, agent);
    if Execute(s, a).Commit? {
      if a.next.active {
        SettlingRefl(s, t, a, org, agent);
      } else {
        SeatsSettling(s, t, a, org, agent, a.org, {a.user});
      }
    }
  }

  lemma BlankSettling(s: State, t: State, a: Action, org: Id, agent: Id)
    requires s.orgs == map[] && s.agents == map[]
    ensures Settling(s, t, a, org, agent)
  {
  }

  lemma FoundedSettling(s: State, t: State, a: Action, org: Id, agent: Id)
    requires Founded(s, t, a)
    ensures Settling(s, t, a, org, agent)
  {
    BlankSettling(s, t, a, org, agent);
  }

  lemma FoundingSettling(s: State, a: Action, org: Id, agent: Id)
    requires Inv(s) && Founding(a)
    ensures Settling(s, Step(s, a), a, org, agent)
  {
    hide Inv, Settling, Step, Execute, Founded;
    SettlingRefl(s, s, a, org, agent);
    FoundedFrame(s, a);
    if Step(s, a) != s {
      FoundedSettling(s, Step(s, a), a, org, agent);
    }
  }

  lemma OthersSettling(s: State, t: State, a: Action, org: Id, agent: Id)
    requires AccountsOnly(s, t) || InvitationsOnly(s, t) || SessionsOnly(s, t)
          || (DevicesOnly(s, t) && t.agents == s.agents) || BillingOnly(s, t) || AcceptOnly(s, t)
    ensures Settling(s, t, a, org, agent)
  {
    hide AccountsOnly, InvitationsOnly, SessionsOnly, BillingOnly, AcceptOnly, DevicesOnly;
    if AccountsOnly(s, t) {
      AccountsRest(s, t);
    } else if InvitationsOnly(s, t) {
      InvitationsRest(s, t);
    } else if SessionsOnly(s, t) {
      SessionsRest(s, t);
    } else if BillingOnly(s, t) {
      BillingRest(s, t);
    } else if AcceptOnly(s, t) {
      AcceptRest(s, t);
    } else {
      DevicesRest(s, t);
    }
    SettlingRefl(s, t, a, org, agent);
  }

  lemma QuietSettling(s: State, a: Action, org: Id, agent: Id)
    requires !Founding(a) && !a.DoPublish? && !a.DoMutate? && !a.DoUpdateMember?
    ensures Settling(s, Step(s, a), a, org, agent)
  {
    hide Step, Execute, Settling, AccountsOnly, InvitationsOnly, SessionsOnly, DevicesOnly, BillingOnly, AcceptOnly;
    if AccountAction(a) {
      AccountFrame(s, a);
    } else if InvitationAction(a) {
      InvitationFrame(s, a);
    } else if SessionAction(a) {
      SessionFrame(s, a);
    } else if DeviceAction(a) {
      DeviceFrame(s, a);
    } else if BillingAction(a) {
      BillingFrame(s, a);
    } else {
      AcceptFrame(s, a);
    }
    OthersSettling(s, Step(s, a), a, org, agent);
  }

  lemma StepSettling(s: State, a: Action, org: Id, agent: Id)
    requires Inv(s) && Allowed(s, a)
    ensures Settling(s, Step(s, a), a, org, agent)
  {
    hide Inv, Settling, Mutate, Devices.UpsertAgent;
    if Founding(a) {
      FoundingSettling(s, a, org, agent);
    } else if a.DoPublish? {
      PublishSettling(s, a, org, agent);
    } else if a.DoMutate? {
      MutateSettling(s, a, org, agent);
    } else if a.DoUpdateMember? {
      UpdateMemberSettling(s, a, org, agent);
    } else {
      QuietSettling(s, a, org, agent);
    }
  }

  lemma OrgOf(s: State, org: Id)
    requires Inv(s) && org in s.orgs && !s.orgs[org].active
    ensures Members(s.seats, org) == {}
    ensures forall a :: a in s.agents && s.agents[a].org == org ==> !s.agents[a].active
    ensures forall n :: n in s.nodes && s.nodes[n].org == org ==> s.nodes[n].revoked
  {
    hide Inv;
    Coherence.SeatsOf(s);
    forall a | a in s.agents && s.agents[a].org == org
      ensures !s.agents[a].active
    {
      if s.agents[a].active {
        Machines.AgentSeat(s, a);
      }
    }
    forall n | n in s.nodes && s.nodes[n].org == org
      ensures s.nodes[n].revoked
    {
      NoSeatNoDevice(s, n);
    }
    forall u
      ensures u !in Members(s.seats, org)
    {
      assert ActiveSeat(s.seats, org, u) ==> ActiveOrg(s.orgs, org);
    }
  }

  /** Main result. A dissolved organization is empty for good: no member, agent or device ever again. */
  lemma {:induction false} DissolvedForGood(states: seq<State>, actions: seq<Action>, i: nat, j: nat, org: Id)
    requires Trace(states, actions) && i <= j < |states|
    requires org in states[i].orgs && !states[i].orgs[org].active
    ensures org in states[j].orgs && !states[j].orgs[org].active
    ensures Members(states[j].seats, org) == {}
    ensures forall a :: a in states[j].agents && states[j].agents[a].org == org ==> !states[j].agents[a].active
    ensures forall n :: n in states[j].nodes && states[j].nodes[n].org == org ==> states[j].nodes[n].revoked
    decreases j - i
  {
    hide Inv, Allowed, Step, Members;
    Preservation.RunKeeps(states, actions, j);
    if i < j {
      DissolvedForGood(states, actions, i, j - 1, org);
      Preservation.RunKeeps(states, actions, j - 1);
      StepSettling(states[j - 1], actions[j - 1], org, 0);
    }
    OrgOf(states[j], org);
  }

  lemma {:induction false} AgentKeyStays(states: seq<State>, actions: seq<Action>, i: nat, j: nat, agent: Id)
    requires Trace(states, actions) && i <= j < |states| && agent in states[i].agents
    ensures agent in states[j].agents && SameSource(states[i].agents[agent], states[j].agents[agent])
    decreases j - i
  {
    hide Inv, Allowed, Step, Publishes;
    if i < j {
      AgentKeyStays(states, actions, i, j - 1, agent);
      Preservation.RunKeeps(states, actions, j - 1);
      StepSettling(states[j - 1], actions[j - 1], 0, agent);
    }
  }

  /** Main result. A revoked agent works again only if its owner published it, in the same
      organization and under the same source, in between. */
  lemma {:induction false} OnlyPublishingRestores(states: seq<State>, actions: seq<Action>, i: nat, j: nat, agent: Id)
    requires Trace(states, actions) && i <= j < |states|
    requires agent in states[i].agents && !states[i].agents[agent].active
    requires agent in states[j].agents && states[j].agents[agent].active
    ensures exists k :: i <= k < j && Publishes(actions[k], states[i].agents[agent])
    decreases j - i
  {
    hide Inv, Allowed, Step;
    if i < j {
      AgentKeyStays(states, actions, i, j - 1, agent);
      Preservation.RunKeeps(states, actions, j - 1);
      StepSettling(states[j - 1], actions[j - 1], 0, agent);
      if states[j - 1].agents[agent].active {
        OnlyPublishingRestores(states, actions, i, j - 1, agent);
      }
    }
  }

  // ---- what leaving and dissolving write ------------------------------------------------------

  /** Rows of a commit that evicts `users` from the organization. */
  ghost predicate Emptied(t: State, org: Id, users: set<Id>) {
    && (forall u <- users :: !ActiveSeat(t.seats, org, u))
    && (forall a <- t.agents.Keys :: t.agents[a].org == org && t.agents[a].owner in users ==> !t.agents[a].active)
    && (forall n <- t.nodes.Keys :: t.nodes[n].org == org && t.nodes[n].owner in users ==> t.nodes[n].revoked)
  }

  lemma EvictEmpties(s: State, org: Id, rows: seq<Id>, now: Time)
    ensures Emptied(Evict(s, org, rows, now), org, UserSet(rows))
  {
    hide InvalidationLog.ForUsers;
  }

  /** Dissolving empties the organization and announces it once to every member. */
  lemma DissolveAnnounces(s: State, actor: Id, org: Id, rows: seq<Id>, now: Time)
    requires Inv(s) && Admissible(s, Some(org), Dissolve(rows))
          && Mutate(s, actor, Some(org), Dissolve(rows), now).Commit?
    ensures var t := Mutate(s, actor, Some(org), Dissolve(rows), now).state;
            && InvalidationLog.ToEach(s.log, t.log, Members(s.seats, org), OrgDraft(0, org, true, now))
            && org in t.orgs && !t.orgs[org].active && Members(t.seats, org) == {}
  {
    hide Inv, Members, InvalidationLog.ForUsers;
    var t := Mutate(s, actor, Some(org), Dissolve(rows), now).state;
    DissolvedState(s, actor, org, rows, now);
    OrganizationInvariant.MutateKeeps(s, actor, Some(org), Dissolve(rows), now);
    Coherence.SeatsOf(s);
    hide Mutate;
    InvalidationLog.ForUsersToEach(s.log, rows, Members(s.seats, org), OrgDraft(0, org, true, now));
    OrgOf(t, org);
  }

  lemma DissolvedState(s: State, actor: Id, org: Id, rows: seq<Id>, now: Time)
    requires Mutate(s, actor, Some(org), Dissolve(rows), now).Commit?
    ensures var t := Mutate(s, actor, Some(org), Dissolve(rows), now).state;
            && org in t.orgs && !t.orgs[org].active
            && t.log == InvalidationLog.ForUsers(s.log, rows, OrgDraft(0, org, true, now))
  {
    hide InvalidationLog.ForUsers, HasOrg, Working, RevokeSeats, RevokeAgents, RevokeNodes;
  }

  /** Leaving empties one seat and announces it to that user alone. */
  lemma LeaveAnnounces(s: State, actor: Id, org: Id, now: Time)
    requires InvalidationLog.Ordered(s.log) && Mutate(s, actor, Some(org), Leave, now).Commit?
    ensures var t := Mutate(s, actor, Some(org), Leave, now).state;
            InvalidationLog.ToEach(s.log, t.log, {actor}, OrgDraft(0, org, true, now)) && Emptied(t, org, {actor})
  {
    var t := Mutate(s, actor, Some(org), Leave, now).state;
    assert t == Evict(s, org, [actor], now);
    hide Mutate;
    EvictEmpties(s, org, [actor], now);
    assert UserSet([actor]) == {actor};
    InvalidationLog.ForUsersToEach(s.log, [actor], {actor}, OrgDraft(0, org, true, now));
  }

  /** Removing a member empties the seat; the last event says so, and at most a profile event
      precedes it. */
  lemma RemovalAnnounces(s: State, org: Id, user: Id, actor: Id, expected: Expected, next: Change, now: Time)
    requires UpdateMember(s, org, user, actor, expected, next, now).Commit? && !next.active
    ensures var t := UpdateMember(s, org, user, actor, expected, next, now).state;
            && Emptied(t, org, {user})
            && s.log <= t.log && |s.log| < |t.log| <= |s.log| + 2
            && t.log[|t.log| - 1].body == OrgDraft(user, org, true, now)
            && (|t.log| == |s.log| + 2 ==> t.log[|s.log|].body == ProfileDraft(user, now))
  {
    hide SeatVersion, Manages, RenamedUsers;
    EmptiedRows(s, org, user, next, now);
    hide RevokeAgents, RevokeNodes, Emptied;
  }

  lemma EmptiedRows(s: State, org: Id, user: Id, next: Change, now: Time)
    requires user in s.users && user in s.access && Seat(org, user) in s.seats && !next.active
    ensures Emptied(ChangeSeat(s, org, user, next, now), org, {user})
  {
    hide SeatLog, RenamedUsers;
  }

  /** Who may do what: the owner alone cannot leave, the owner alone dissolves and hands over (to
      another member who still has access), owner and admins rename. */
  lemma OwnerStays(s: State, actor: Id, org: Id, target: Id, name: string, rows: seq<Id>, now: Time)
    requires Working(s, actor) && InOrg(s, org, actor)
    ensures Mutate(s, actor, Some(org), Leave, now) == Abort(LastOwner) <==> IsOwner(s.seats, org, actor)
    ensures Mutate(s, actor, Some(org), Dissolve(rows), now).Commit? <==> IsOwner(s.seats, org, actor)
    ensures Mutate(s, actor, Some(org), Transfer(target), now).Commit? <==>
              IsOwner(s.seats, org, actor) && target != actor && ActiveSeat(s.seats, org, target)
                && HasAccess(s, target)
    ensures Mutate(s, actor, Some(org), Rename(name, rows), now).Commit?
         <==> IsOwner(s.seats, org, actor) || IsAdmin(s.seats, org, actor)
  {
    hide HasOrg, InvalidationLog.ForUsers, Evict, Handover, Notify;
  }
}
