/** Organization transactions keep the invariant, statement by statement where the order of writes matters. */
module OrganizationInvariant {
  import opened Records
  import opened Schema
  import opened Organizations
  import InvalidationLog

  // ---- seats --------------------------------------------------------------------

  lemma NoActiveSeat(s: State, user: Id)
    requires SeatsFit(s.seats, s.orgs, s.users.Keys) && !HasOrg(s, user)
    ensures forall o :: !ActiveSeat(s.seats, o, user)
  {
    forall o
      ensures !ActiveSeat(s.seats, o, user)
    {
      assert Seat(o, user) in s.seats.Keys ==> !InOrg(s, o, user);
    }
  }

  /** Ownership survives wherever the owner of every other active organization stays. */
  lemma OwnersStay(before: map<Seat, Membership>, after: map<Seat, Membership>, orgs: map<Id, Organization>, org: Id)
    requires forall o :: o != org && ActiveOrg(orgs, o) ==> HasOwner(before, o)
    requires forall o, u :: o != org && IsOwner(before, o, u) ==> IsOwner(after, o, u)
    ensures forall o :: o != org && ActiveOrg(orgs, o) ==> HasOwner(after, o)
  {
    forall o | o != org && ActiveOrg(orgs, o)
      ensures HasOwner(after, o)
    {
      var u :| IsOwner(before, o, u);
      assert IsOwner(after, o, u);
    }
  }

  /** A user without an active seat takes one; as owner only where there is none. */
  lemma EnterSeats(s: State, org: Id, user: Id, role: Role, now: Time)
    requires SeatsFit(s.seats, s.orgs, s.users.Keys)
    requires forall o :: !ActiveSeat(s.seats, o, user)
    requires role == Owner ==> forall u :: !IsOwner(s.seats, org, u)
    ensures var seats := Enter(s, org, user, role, now).seats;
            && OneActiveSeat(seats) && OneOwner(seats)
            && (forall o, u :: ActiveSeat(seats, o, u) <==> ActiveSeat(s.seats, o, u) || (o == org && u == user))
            && (forall o, u :: IsOwner(seats, o, u)
                  <==> IsOwner(s.seats, o, u) || (o == org && u == user && role == Owner))
  {
    var seats := Enter(s, org, user, role, now).seats;
    forall o, u
      ensures ActiveSeat(seats, o, u) <==> ActiveSeat(s.seats, o, u) || (o == org && u == user)
      ensures IsOwner(seats, o, u) <==> IsOwner(s.seats, o, u) || (o == org && u == user && role == Owner)
    {
      assert !ActiveSeat(s.seats, o, user);
    }
  }

  lemma EnterKeeps(s: State, org: Id, user: Id, role: Role, now: Time)
    requires SeatsFit(s.seats, s.orgs, s.users.Keys) && AgentsFit(s.agents, s.seats, s.orgs.Keys, s.users.Keys)
    requires role != Owner && ActiveOrg(s.orgs, org) && user in s.users
    requires forall o :: !ActiveSeat(s.seats, o, user)
    ensures var out := Enter(s, org, user, role, now);
            SeatsFit(out.seats, s.orgs, s.users.Keys) && AgentsFit(s.agents, out.seats, s.orgs.Keys, s.users.Keys)
  {
    var seats := Enter(s, org, user, role, now).seats;
    EnterSeats(s, org, user, role, now);
    forall o | ActiveOrg(s.orgs, o)
      ensures HasOwner(seats, o)
    {
      var u :| IsOwner(s.seats, o, u);
      assert IsOwner(seats, o, u);
    }
  }

  lemma FoundKeeps(s: State, org: Id, name: string, user: Id, now: Time)
    requires SeatsFit(s.seats, s.orgs, s.users.Keys) && AgentsFit(s.agents, s.seats, s.orgs.Keys, s.users.Keys)
    requires org !in s.orgs && user in s.users
    requires forall o :: !ActiveSeat(s.seats, o, user)
    ensures var out := Found(s, org, name, user, now);
            SeatsFit(out.seats, out.orgs, s.users.Keys) && AgentsFit(s.agents, out.seats, out.orgs.Keys, s.users.Keys)
  {
    var out := Found(s, org, name, user, now);
    assert forall u :: !ActiveSeat(s.seats, org, u);
    EnterSeats(s, org, user, Owner, now);
    OwnersStay(s.seats, out.seats, s.orgs, org);
    assert IsOwner(out.seats, org, user);
    forall o | ActiveOrg(out.orgs, o)
      ensures HasOwner(out.seats, o)
    {
      assert o != org ==> ActiveOrg(s.orgs, o);
    }
  }

  lemma HandoverKeeps(s: State, org: Id, owner: Id, target: Id, now: Time)
    requires SeatsFit(s.seats, s.orgs, s.users.Keys) && AgentsFit(s.agents, s.seats, s.orgs.Keys, s.users.Keys)
    requires IsOwner(s.seats, org, owner) && ActiveSeat(s.seats, org, target) && owner != target
    ensures var out := Handover(s, org, owner, target, now);
            && SeatsFit(out.seats, s.orgs, s.users.Keys) && AgentsFit(s.agents, out.seats, s.orgs.Keys, s.users.Keys)
            && IsOwner(out.seats, org, target) && IsAdmin(out.seats, org, owner)
  {
    var out := Handover(s, org, owner, target, now);
    forall o, u
      ensures ActiveSeat(out.seats, o, u) <==> ActiveSeat(s.seats, o, u)
      ensures IsOwner(out.seats, o, u) <==> (if o == org then u == target else IsOwner(s.seats, o, u))
    {
      assert IsOwner(s.seats, org, u) ==> u == owner;
    }
    OwnersStay(s.seats, out.seats, s.orgs, org);
    assert IsOwner(out.seats, org, target);
  }

  lemma EvictSeats(seats: map<Seat, Membership>, org: Id, users: set<Id>, now: Time)
    ensures var after := RevokeSeats(seats, org, users, now);
            && (forall o, u :: ActiveSeat(after, o, u) <==> ActiveSeat(seats, o, u) && !(o == org && u in users))
            && (forall o, u :: IsOwner(after, o, u) <==> IsOwner(seats, o, u) && !(o == org && u in users))
            && (OneActiveSeat(seats) ==> OneActiveSeat(after)) && (OneOwner(seats) ==> OneOwner(after))
  {
    var after := RevokeSeats(seats, org, users, now);
    forall o, u
      ensures ActiveSeat(after, o, u) <==> ActiveSeat(seats, o, u) && !(o == org && u in users)
      ensures IsOwner(after, o, u) <==> IsOwner(seats, o, u) && !(o == org && u in users)
    {
    }
  }

  lemma EvictAgents(agents: map<Id, Agent>, before: map<Seat, Membership>, after: map<Seat, Membership>, org: Id,
      users: set<Id>, orgs: set<Id>, accounts: set<Id>)
    requires AgentsFit(agents, before, orgs, accounts)
    requires forall o, u :: !(o == org && u in users) && ActiveSeat(before, o, u) ==> ActiveSeat(after, o, u)
    ensures AgentsFit(RevokeAgents(agents, org, users), after, orgs, accounts)
  {
    var out := RevokeAgents(agents, org, users);
    assert out.Keys == agents.Keys;
    assert forall a, b :: a in agents && b in agents ==>
      (SameSource(out[a], out[b]) <==> SameSource(agents[a], agents[b]));
  }

  /** Devices that outlive an eviction belong to members who stay, and so do their agents. */
  lemma EvictNodes(nodes: map<Id, Node>, agents: map<Id, Agent>, sessions: map<Id, Session>, org: Id, users: set<Id>,
      orgs: set<Id>, accounts: set<Id>)
    requires NodesFit(nodes, sessions, orgs, accounts) && NodesBacked(nodes, agents)
    ensures NodesFit(RevokeNodes(nodes, org, users), sessions, orgs, accounts)
    ensures NodesBacked(RevokeNodes(nodes, org, users), RevokeAgents(agents, org, users))
  {
    var out := RevokeNodes(nodes, org, users);
    forall n | n in out && !out[n].revoked
      ensures NodeBacked(out[n], RevokeAgents(agents, org, users))
    {
      assert NodeBacked(nodes[n], agents);
    }
  }

  // ---- organizations ------------------------------------------------------------

  lemma LeaveKeeps(s: State, org: Id, user: Id, now: Time)
    requires Inv(s) && ActiveSeat(s.seats, org, user) && !IsOwner(s.seats, org, user)
    ensures Inv(Evict(s, org, [user], now))
  {
    hide AccountsFit, InvitationsFit, SessionsFit, AgentsFit, NodesFit, NodesBacked, PlansFit, ReceiptsFit,
      InvalidationLog.Ordered, PlatformOwned, FreePlan;
    var out := Evict(s, org, [user], now);
    var users := UserSet([user]);
    EvictSeats(s.seats, org, users, now);
    EvictAgents(s.agents, s.seats, out.seats, org, users, s.orgs.Keys, s.users.Keys);
    EvictNodes(s.nodes, s.agents, s.sessions, org, users, s.orgs.Keys, s.users.Keys);
    InvalidationLog.ForUsersShape(s.log, [user], OrgDraft(0, org, true, now));
    OwnersStay(s.seats, out.seats, s.orgs, org);
    if ActiveOrg(s.orgs, org) {
      var u :| IsOwner(s.seats, org, u);
      assert IsOwner(out.seats, org, u);
    }
  }

  lemma DissolveSeats(s: State, org: Id, rows: seq<Id>, now: Time)
    requires SeatsFit(s.seats, s.orgs, s.users.Keys) && org in s.orgs && Lists(rows, Members(s.seats, org))
    ensures var out := Evict(s, org, rows, now);
            SeatsFit(out.seats, out.orgs[org := out.orgs[org].(active := false)], s.users.Keys)
  {
    var out := Evict(s, org, rows, now);
    EvictSeats(s.seats, org, UserSet(rows), now);
    forall u
      ensures !ActiveSeat(out.seats, org, u)
    {
      assert ActiveSeat(s.seats, org, u) ==> u in Members(s.seats, org);
    }
    assert forall k :: k in out.seats && k.org == org ==> out.seats[k].active == ActiveSeat(out.seats, org, k.user);
    OwnersStay(s.seats, out.seats, s.orgs, org);
  }

  lemma DissolveKeeps(s: State, org: Id, rows: seq<Id>, now: Time)
    requires Inv(s) && org in s.orgs && Lists(rows, Members(s.seats, org))
    ensures var out := Evict(s, org, rows, now);
            Inv(out.(orgs := out.orgs[org := out.orgs[org].(active := false)]))
  {
    hide AccountsFit, InvitationsFit, SessionsFit, AgentsFit, NodesFit, NodesBacked, PlansFit, ReceiptsFit,
      SeatsFit, Lists;
    var out := Evict(s, org, rows, now);
    var users := UserSet(rows);
    assert out.orgs[org := out.orgs[org].(active := false)].Keys == s.orgs.Keys;
    DissolveSeats(s, org, rows, now);
    EvictSeats(s.seats, org, users, now);
    EvictAgents(s.agents, s.seats, out.seats, org, users, s.orgs.Keys, s.users.Keys);
    EvictNodes(s.nodes, s.agents, s.sessions, org, users, s.orgs.Keys, s.users.Keys);
    InvalidationLog.ForUsersShape(s.log, rows, OrgDraft(0, org, true, now));
  }

  lemma RenamedSeats(seats: map<Seat, Membership>, orgs: map<Id, Organization>, users: set<Id>, org: Id, name: string)
    requires SeatsFit(seats, orgs, users) && org in orgs
    ensures SeatsFit(seats, orgs[org := orgs[org].(name := name)], users)
         && orgs[org := orgs[org].(name := name)].Keys == orgs.Keys
  {
    hide OneActiveSeat, OneOwner, HasOwner;
    var after := orgs[org := orgs[org].(name := name)];
    assert forall o :: ActiveOrg(after, o) <==> ActiveOrg(orgs, o);
  }

  lemma RenameKeeps(s: State, org: Id, name: string, rows: seq<Id>, now: Time)
    requires Inv(s) && org in s.orgs
    ensures Inv(s.(orgs := s.orgs[org := s.orgs[org].(name := name)],
              log := InvalidationLog.ForUsers(s.log, rows, OrgDraft(0, org, false, now))))
  {
    hide AccountsFit, InvitationsFit, SeatsFit, SessionsFit, AgentsFit, NodesFit, NodesBacked, PlansFit, ReceiptsFit,
      PlatformOwned, FreePlan, InvalidationLog.Ordered, InvalidationLog.ForUsers;
    InvalidationLog.ForUsersShape(s.log, rows, OrgDraft(0, org, false, now));
    RenamedSeats(s.seats, s.orgs, s.users.Keys, org, name);
  }

  /** A new organization row leaves every foreign key valid. */
  lemma OrgsGrow(s: State, org: Id)
    requires Inv(s)
    ensures InvitationsFit(s.invitations, s.orgs.Keys + {org}, s.users.Keys, s.issuedInvitations)
    ensures NodesFit(s.nodes, s.sessions, s.orgs.Keys + {org}, s.users.Keys)
  {
    hide AccountsFit, SeatsFit, SessionsFit, AgentsFit, NodesBacked, PlansFit, ReceiptsFit;
    var orgs := s.orgs.Keys + {org};
    assert forall i :: i in s.invitations ==> InvitationFits(s.invitations[i], orgs, s.users.Keys);
  }

  lemma CreateKeeps(s: State, org: Id, name: string, user: Id, now: Time)
    requires Inv(s) && org !in s.orgs && user in s.users && !HasOrg(s, user)
    ensures Inv(Notify(Found(s, org, name, user, now), OrgDraft(user, org, false, now)))
  {
    hide AccountsFit, InvitationsFit, SeatsFit, SessionsFit, AgentsFit, NodesFit, NodesBacked, PlansFit,
      ReceiptsFit, HasOrg;
    var out := Found(s, org, name, user, now);
    assert out.orgs.Keys == s.orgs.Keys + {org};
    NoActiveSeat(s, user);
    FoundKeeps(s, org, name, user, now);
    OrgsGrow(s, org);
  }

  lemma AcceptKeeps(s: State, i: Id, user: Id, now: Time)
    requires InvitationsFit(s.invitations, s.orgs.Keys, s.users.Keys, s.issuedInvitations)
    requires i in s.invitations && Open(s.invitations[i], now) && user in s.users
    ensures InvitationsFit(Accept(s, i, user, now).invitations, s.orgs.Keys, s.users.Keys, s.issuedInvitations)
  {
    assert InvitationFits(s.invitations[i], s.orgs.Keys, s.users.Keys);
    assert InvitationFits(Accept(s, i, user, now).invitations[i], s.orgs.Keys, s.users.Keys);
  }

  lemma JoinKeeps(s: State, i: Id, user: Id, now: Time)
    requires Inv(s) && i in s.invitations && Open(s.invitations[i], now) && ActiveOrg(s.orgs, s.invitations[i].org)
    requires user in s.users && !HasOrg(s, user)
    ensures var inv := s.invitations[i];
            Inv(Notify(Accept(Enter(s, inv.org, user, inv.role, now), i, user, now),
              OrgDraft(user, inv.org, false, now)))
  {
    hide AccountsFit, SeatsFit, SessionsFit, AgentsFit, NodesFit, NodesBacked, PlansFit, ReceiptsFit, HasOrg;
    var inv := s.invitations[i];
    assert InvitationFits(inv, s.orgs.Keys, s.users.Keys);
    hide InvitationsFit;
    NoActiveSeat(s, user);
    EnterKeeps(s, inv.org, user, inv.role, now);
    AcceptKeeps(s, i, user, now);
  }

  lemma TransferKeeps(s: State, org: Id, owner: Id, target: Id, now: Time)
    requires Inv(s) && IsOwner(s.seats, org, owner) && ActiveSeat(s.seats, org, target) && owner != target
    ensures Inv(Notify(Notify(Handover(s, org, owner, target, now), OrgDraft(target, org, false, now)),
              OrgDraft(owner, org, false, now)))
  {
    hide AccountsFit, InvitationsFit, SeatsFit, SessionsFit, AgentsFit, NodesFit, NodesBacked, PlansFit, ReceiptsFit;
    HandoverKeeps(s, org, owner, target, now);
  }

  lemma MutateKeeps(s: State, actor: Id, home: Option<Id>, command: Command, now: Time)
    requires Inv(s) && Admissible(s, home, command)
    ensures Inv(Mutate(s, actor, home, command, now).After(s))
  {
    hide Inv, HasOrg, Open, Lists;
    if Mutate(s, actor, home, command, now).Commit? {
      match command
      case Create(org, name) => CreateKeeps(s, org, name, actor, now);
      case Join(token) => JoinKeeps(s, InvitationByToken(s.invitations, token).value, actor, now);
      case Leave => LeaveKeeps(s, home.value, actor, now);
      case Transfer(target) => TransferKeeps(s, home.value, actor, target, now);
      case Rename(name, rows) => RenameKeeps(s, home.value, name, rows, now);
      case Dissolve(rows) => DissolveKeeps(s, home.value, rows, now);
    }
  }
}
