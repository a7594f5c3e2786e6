/**
 What is gone stays gone: revoked devices and tombstones, dead sessions, disabled
 organizations, evicted members' machines.
 */
module Fences {
  import opened Records
  import opened Organizations
  import opened Devices
  import opened Control
  import opened Frames
  import Accounts
  import InvalidationLog
  import Machines
  import Preservation
  import Schema
  import Sessions

  /** The session was issued once and is revoked or deleted. */
  predicate DeadSession(s: State, k: Id) {
    k in s.issuedSessions && (k in s.sessions ==> s.sessions[k].revoked)
  }

  /** The grant of device `n` under session `k` is over: the row is there and revoked, or
      the purge took it away together with its session. */
  predicate Fenced(s: State, n: Id, k: Id) {
    && k in s.issuedSessions
    && (k in s.sessions ==> n in s.nodes && s.nodes[n].session == k && s.nodes[n].revoked)
  }

  /** The row as registered; revocation is the only thing that ever happens to it. */
  predicate SameGrant(a: Node, b: Node) {
    b == a.(revoked := b.revoked)
  }

  /** What one step may do to sessions and to revoked devices. */
  ghost predicate Fencing(s: State, t: State, n: Id, k: Id) {
    && s.issuedSessions <= t.issuedSessions
    && (k in s.issuedSessions && k in t.sessions ==>
          k in s.sessions && t.sessions[k].user == s.sessions[k].user
          && (s.sessions[k].revoked ==> t.sessions[k].revoked))
    && (n in s.nodes && s.nodes[n].session in t.sessions ==>
          n in t.nodes && SameGrant(s.nodes[n], t.nodes[n]) && (s.nodes[n].revoked ==> t.nodes[n].revoked))
  }

  lemma FencingHolds(s: State, t: State, n: Id, k: Id)
    requires Fencing(s, t, n, k)
    ensures Fenced(s, n, k) ==> Fenced(t, n, k)
    ensures DeadSession(s, k) ==> DeadSession(t, k)
  {
  }

  lemma FencingRefl(s: State, n: Id, k: Id)
    ensures Fencing(s, s, n, k)
  {
  }

  lemma MutateFencing(s: State, actor: Id, home: Option<Id>, command: Command, now: Time, n: Id, k: Id)
    ensures Fencing(s, Mutate(s, actor, home, command, now).After(s), n, k)
  {
    hide Schema.HasOrg, Open, InvalidationLog.ForUsers, Schema.HasAccess, Evict, Fencing, Enter, InvalidationLog.Append;
    FencingRefl(s, n, k);
    if Mutate(s, actor, home, command, now).Commit? {
      match command
      case Create(org, name) => FoundFencing(s, org, name, actor, now, n, k);
      case Join(token) => JoinFencing(s, Schema.InvitationByToken(s.invitations, token).value, actor, now, n, k);
      case Leave => EvictFencing(s, home.value, [actor], now, n, k);
      case Transfer(target) => TransferFencing(s, home.value, actor, target, now, n, k);
      case Rename(name, rows) => RenameFencing(s, home.value, name, rows, now, n, k);
      case Dissolve(rows) => DissolveFencing(s, home.value, rows, now, n, k);
    }
  }

  lemma FoundFencing(s: State, org: Id, name: string, actor: Id, now: Time, n: Id, k: Id)
    ensures Fencing(s, Notify(Found(s, org, name, actor, now), OrgDraft(actor, org, false, now)), n, k)
  {
  }

  lemma JoinFencing(s: State, i: Id, actor: Id, now: Time, n: Id, k: Id)
    requires i in s.invitations
    ensures var inv := s.invitations[i];
            Fencing(s, Notify(Accept(Enter(s, inv.org, actor, inv.role, now), i, actor, now),
              OrgDraft(actor, inv.org, false, now)), n, k)
  {
  }

  lemma TransferFencing(s: State, org: Id, owner: Id, target: Id, now: Time, n: Id, k: Id)
    requires Seat(org, owner) in s.seats && Seat(org, target) in s.seats
    ensures Fencing(s, Notify(Notify(Handover(s, org, owner, target, now), OrgDraft(target, org, false, now)),
              OrgDraft(owner, org, false, now)), n, k)
  {
  }

  lemma RenameFencing(s: State, org: Id, name: string, rows: seq<Id>, now: Time, n: Id, k: Id)
    requires org in s.orgs
    ensures Fencing(s, s.(orgs := s.orgs[org := s.orgs[org].(name := name)],
              log := InvalidationLog.ForUsers(s.log, rows, OrgDraft(0, org, false, now))), n, k)
  {
    hide InvalidationLog.ForUsers;
  }

  lemma EvictFencing(s: State, org: Id, rows: seq<Id>, now: Time, n: Id, k: Id)
    ensures Fencing(s, Evict(s, org, rows, now), n, k)
  {
    hide InvalidationLog.ForUsers, RevokeSeats, RevokeAgents;
  }

  lemma DissolveFencing(s: State, org: Id, rows: seq<Id>, now: Time, n: Id, k: Id)
    requires org in s.orgs
    ensures var out := Evict(s, org, rows, now);
            org in out.orgs && Fencing(s, out.(orgs := out.orgs[org := out.orgs[org].(active := false)]), n, k)
  {
    hide InvalidationLog.ForUsers, RevokeSeats, RevokeAgents;
  }

  lemma ChangeSeatFencing(s: State, org: Id, who: Id, next: Change, now: Time, n: Id, k: Id)
    requires who in s.users && who in s.access && Seat(org, who) in s.seats
    ensures Fencing(s, ChangeSeat(s, org, who, next, now), n, k)
  {
    hide SeatLog, RenamedUsers, RevokeAgents;
  }

  lemma ChangeAccessFencing(s: State, who: Id, next: Change, now: Time, n: Id, k: Id)
    requires who in s.users && who in s.access
    ensures Fencing(s, Accounts.ChangeAccess(s, who, next, now), n, k)
  {
    hide Accounts.AccessLog, RenamedUsers;
  }

  lemma CreateSessionFencing(s: State, id: Id, who: Id, token: Id, expires: Time, now: Time, n: Id, k: Id)
    requires Schema.Inv(s) && id !in s.issuedSessions
    ensures Fencing(s, Sessions.CreateSession(s, id, who, token, expires, now).After(s), n, k)
  {
    hide Schema.Inv, Sessions.DeadSessions;
    if n in s.nodes {
      Preservation.NodeOf(s, n);
      Machines.IssuedSession(s, s.nodes[n].session);
    }
  }

  lemma SessionRowFencing(s: State, session: Id, body: Draft, n: Id, k: Id)
    requires session in s.sessions
    ensures Fencing(s, Notify(s.(sessions := s.sessions[session := s.sessions[session].(revoked := true)]), body), n, k)
  {
    hide InvalidationLog.Append;
  }

  lemma RevokeSessionFencing(s: State, token: Id, now: Time, n: Id, k: Id)
    ensures Fencing(s, Sessions.RevokeSession(s, token, now).After(s), n, k)
  {
    hide Fencing, Notify;
    FencingRefl(s, n, k);
    var session := Schema.SessionByToken(s.sessions, token);
    if session.Some? {
      SessionRowFencing(s, session.value,
        Draft(s.sessions[session.value].user, SessionRef(session.value), SessionRevoked, None, false, now), n, k);
    }
  }

  lemma SwappedFencing(s: State, key: Request, next: Hash, rows: seq<Id>, now: Time, n: Id, k: Id)
    ensures Fencing(s, Sessions.Swapped(s, key, next, rows, now), n, k)
  {
    hide InvalidationLog.ForNodes;
  }

  lemma NewRow(s: State, owner: Id, org: Id, session: Id, r: Registration, now: Time)
    ensures var t := RegisterNode(s, owner, Some(org), session, r, now).After(s);
            t == s || t == s.(nodes := s.nodes[r.node := NewNode(owner, org, session, r, now)])
  {
    hide Schema.LiveSession, Schema.LiveAgent, NewNode, SameNode, CredentialTaken;
  }

  lemma RegisterNodeFencing(s: State, owner: Id, org: Option<Id>, session: Id, r: Registration, now: Time, n: Id, k: Id)
    ensures Fencing(s, RegisterNode(s, owner, org, session, r, now).After(s), n, k)
  {
    hide Schema.LiveSession, Schema.LiveAgent, NewNode, SameNode, CredentialTaken, Fencing;
    FencingRefl(s, n, k);
    if org.Some? && r.node !in s.nodes {
      NewRow(s, owner, org.value, session, r, now);
      hide RegisterNode;
      NodeRowFencing(s, r.node, NewNode(owner, org.value, session, r, now), s.log, n, k);
    }
  }

  lemma NodeRowFencing(s: State, node: Id, row: Node, log: seq<Event>, n: Id, k: Id)
    requires node in s.nodes ==> row == s.nodes[node].(revoked := true)
    ensures Fencing(s, s.(nodes := s.nodes[node := row], log := log), n, k)
  {
  }

  lemma RevokeNodeFencing(s: State, owner: Id, org: Option<Id>, session: Id, node: Id, now: Time, n: Id, k: Id)
    ensures Fencing(s, RevokeNode(s, owner, org, session, node, now).After(s), n, k)
  {
    hide Schema.LiveSession, InvalidationLog.Append, Fencing;
    FencingRefl(s, n, k);
    if node in s.nodes {
      NodeRowFencing(s, node, s.nodes[node].(revoked := true),
        InvalidationLog.Append(s.log, Sessions.NodeDraft(owner, node, now)), n, k);
    } else if org.Some? {
      NodeRowFencing(s, node, TombstoneNode(owner, org.value, session, node, now), s.log, n, k);
    }
  }

  lemma FramedFencing(s: State, t: State, n: Id, k: Id)
    requires t.sessions == s.sessions && t.nodes == s.nodes && t.issuedSessions == s.issuedSessions
    ensures Fencing(s, t, n, k)
  {
  }

  lemma OthersFencing(s: State, t: State, n: Id, k: Id)
    requires (AccountsOnly(s, t) && t.sessions == s.sessions) || InvitationsOnly(s, t) || BillingOnly(s, t)
          || AcceptOnly(s, t) || ReceiptsOnly(s, t) || AgentsOnly(s, t)
    ensures Fencing(s, t, n, k)
  {
    hide InvitationsOnly, BillingOnly, AcceptOnly, ReceiptsOnly, AgentsOnly, AccountsOnly;
    if InvitationsOnly(s, t) {
      InvitationsRest(s, t);
    } else if BillingOnly(s, t) {
      BillingRest(s, t);
    } else if AcceptOnly(s, t) {
      AcceptRest(s, t);
    } else if ReceiptsOnly(s, t) {
      ReceiptsRest(s, t);
    } else if AgentsOnly(s, t) {
      AgentsRest(s, t);
    } else {
      AccountsRest(s, t);
    }
    FramedFencing(s, t, n, k);
  }

  lemma QuietFencing(s: State, a: Action, n: Id, k: Id)
    requires AccountAction(a) || InvitationAction(a) || BillingAction(a) || a.DoAccept? || a.DoSettle? || a.DoPublish?
    requires !a.DoUpdateAccess?
    ensures Fencing(s, Step(s, a), n, k)
  {
    hide Step, Execute, Fencing, AccountsOnly, InvitationsOnly, BillingOnly, AcceptOnly, ReceiptsOnly, AgentsOnly;
    if AccountAction(a) {
      AccountFrame(s, a);
    } else if InvitationAction(a) {
      InvitationFrame(s, a);
    } else if BillingAction(a) {
      BillingFrame(s, a);
    } else if a.DoAccept? {
      AcceptFrame(s, a);
    } else if a.DoSettle? {
      SettleFrame(s, a);
    } else {
      PublishedFrame(s, a);
    }
    OthersFencing(s, Step(s, a), n, k);
  }

  lemma BlankFencing(s: State, t: State, n: Id, k: Id)
    requires s.nodes == map[] && s.sessions == map[] && t.sessions == map[] && s.issuedSessions <= t.issuedSessions
    ensures Fencing(s, t, n, k)
  {
  }

  lemma FoundedFencing(s: State, t: State, a: Action, n: Id, k: Id)
    requires Founded(s, t, a) && Allowed(s, a) && Founding(a)
    ensures Fencing(s, t, n, k)
  {
    hide Schema.Inv;
    BlankFencing(s, t, n, k);
  }

  lemma FoundingFencing(s: State, a: Action, n: Id, k: Id)
    requires Schema.Inv(s) && Allowed(s, a) && Founding(a)
    ensures Fencing(s, Step(s, a), n, k)
  {
    hide Schema.Inv, Fencing, Step, Execute, Allowed, Founded;
    FencingRefl(s, n, k);
    FoundedFrame(s, a);
    if Step(s, a) != s {
      FoundedFencing(s, Step(s, a), a, n, k);
    }
  }

  lemma StepFencing(s: State, a: Action, n: Id, k: Id)
    requires Schema.Inv(s) && Allowed(s, a)
    ensures Fencing(s, Step(s, a), n, k)
  {
    hide Schema.Inv, Fencing, Lists, Accounts.UpdateAvatar, Mutate, Sessions.CreateSession, Sessions.RevokeSession,
      RevokeNode, RegisterNode, Admissible, Accounts.ChangeAccess, ChangeSeat,
      Schema.Manages, Schema.Administers, Sessions.Swapped;
    FencingRefl(s, n, k);
    if Founding(a) {
      FoundingFencing(s, a, n, k);
    } else if a.DoUpdateAccess? {
      if Execute(s, a).Commit? {
        ChangeAccessFencing(s, a.user, a.next, a.now, n, k);
      }
    } else if a.DoUpdateMember? {
      if Execute(s, a).Commit? {
        ChangeSeatFencing(s, a.org, a.user, a.next, a.now, n, k);
      }
    } else if a.DoMutate? {
      MutateFencing(s, a.actor, a.home, a.command, a.now, n, k);
    } else if a.DoCreateSession? {
      CreateSessionFencing(s, a.id, a.user, a.token, a.expires, a.now, n, k);
    } else if a.DoRevokeSession? {
      RevokeSessionFencing(s, a.token, a.now, n, k);
    } else if a.DoTryPassword? {
      SwappedFencing(s, a.key, a.hash, a.rows, a.now, n, k);
    } else if a.DoRegisterNode? {
      RegisterNodeFencing(s, a.owner, a.home, a.session, a.registration, a.now, n, k);
    } else if a.DoRevokeNode? {
      RevokeNodeFencing(s, a.owner, a.home, a.session, a.node, a.now, n, k);
    } else {
      QuietFencing(s, a, n, k);
    }
  }

  // ---- devices ------------------------------------------------------------------------

  lemma {:induction false} FenceStays(states: seq<State>, actions: seq<Action>, i: nat, j: nat, n: Id, k: Id)
    requires Trace(states, actions) && i <= j < |states|
    ensures Fenced(states[i], n, k) ==> Fenced(states[j], n, k)
    ensures DeadSession(states[i], k) ==> DeadSession(states[j], k)
    decreases j - i
  {
    hide Schema.Inv, Allowed, Step, Fenced, DeadSession;
    if i < j {
      FenceStays(states, actions, i, j - 1, n, k);
      Preservation.RunKeeps(states, actions, j - 1);
      StepFencing(states[j - 1], actions[j - 1], n, k);
      FencingHolds(states[j - 1], states[j], n, k);
    }
  }

  /** A fenced grant neither registers again from its session nor exchanges. */
  lemma FencedBlocks(s: State, n: Id, k: Id)
    requires Fenced(s, n, k)
    ensures forall owner, org, r: Registration, now :: r.node == n ==> RegisterNode(s, owner, org, k, r, now).Abort?
    ensures Machines.ExchangeAdmits(s, n) ==> s.nodes[n].session != k
  {
    forall owner, org, r: Registration, now | r.node == n
      ensures RegisterNode(s, owner, org, k, r, now).Abort?
    {
      hide Schema.LiveAgent, CredentialTaken, Canonical;
    }
  }

  /** Every successful `RevokeNode` leaves a fence: over the stored row's session, or, for
      a device never registered, over the caller's own. */
  lemma RevokeNodeFences(s: State, owner: Id, org: Option<Id>, session: Id, node: Id, now: Time)
    requires Schema.Inv(s) && RevokeNode(s, owner, org, session, node, now).Commit?
    ensures Fenced(RevokeNode(s, owner, org, session, node, now).state, node,
              if node in s.nodes then s.nodes[node].session else session)
  {
    hide Schema.Inv, InvalidationLog.Append;
    if node in s.nodes {
      Preservation.NodeOf(s, node);
      Machines.IssuedSession(s, s.nodes[node].session);
    } else {
      Machines.IssuedSession(s, session);
    }
  }

  /**
   Main result. A revoked or tombstoned registration stays cancelled in every later
   state, even after the purge has taken its row: no registration of that device from
   that session commits, and no exchange runs under it.
   */
  lemma CancelledForGood(states: seq<State>, actions: seq<Action>, i: nat, j: nat, n: Id, k: Id)
    requires Trace(states, actions) && i <= j < |states| && Fenced(states[i], n, k)
    ensures forall owner, org, r: Registration, now ::
              r.node == n ==> RegisterNode(states[j], owner, org, k, r, now).Abort?
    ensures Machines.ExchangeAdmits(states[j], n) ==> states[j].nodes[n].session != k
  {
    hide Fenced, RegisterNode, Machines.ExchangeAdmits, Trace;
    FenceStays(states, actions, i, j, n, k);
    FencedBlocks(states[j], n, k);
  }

  lemma DeadHoldsNone(s: State, now: Time, n: Id)
    requires n in s.nodes && s.nodes[n].session in Sessions.DeadSessions(s, now)
    ensures s.nodes[n].revoked
  {
    assert n in s.nodes.Keys;
  }
}
