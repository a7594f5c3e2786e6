/** Repeating a registration: what counts as the same one, in every later state of a run. */
module Replay {
  import opened Records
  import opened Schema
  import opened Devices
  import Control
  import Departures
  import Fences
  import Machines
  import Preservation

  // ---- canonical lists --------------------------------------------------------------

  lemma {:induction false} SortedUnique(a: seq<Id>, b: seq<Id>)
    requires StrictlySorted(a) && StrictlySorted(b) && forall x :: x in a <==> x in b
    ensures a == b
  {
    assert b != [] ==> b[0] in b;
    if a != [] {
      assert a[0] in a && a[0] in b;
      assert b[0] in b && b[0] in a;
      forall x
        ensures x in a[1..] <==> x in b[1..]
      {
        Tail(a, x);
        Tail(b, x);
      }
      SortedUnique(a[1..], b[1..]);
    }
  }

  lemma Tail(a: seq<Id>, x: Id)
    requires StrictlySorted(a) && a != []
    ensures x in a[1..] <==> x in a && x != a[0]
  {
    if x in a && x != a[0] {
      var i :| 0 <= i < |a| && a[i] == x;
      assert a[1..][i - 1] == x;
    }
  }

  /** Sorting and compacting forgets exactly order and repetition. */
  lemma CanonicalForgets(a: seq<Id>, b: seq<Id>)
    ensures Canonical(a) == Canonical(b) <==> forall x :: x in a <==> x in b
  {
    Preservation.CanonicalMembers(a);
    Preservation.CanonicalMembers(b);
    if forall x :: x in a <==> x in b {
      SortedUnique(Canonical(a), Canonical(b));
    } else {
      var x :| (x in a) != (x in b);
      assert (x in Canonical(a)) != (x in Canonical(b));
    }
  }

  // ---- registration and replay ------------------------------------------------------------

  predicate SameRequest(a: Registration, b: Registration) {
    && a.node == b.node && a.name == b.name && a.digest == b.digest
    && forall x <- a.agents + b.agents :: x in a.agents && x in b.agents
  }

  /** The stored row is the one `r` asked for, whatever its creation time. */
  predicate Holds(row: Node, owner: Id, org: Id, session: Id, r: Registration) {
    && row.owner == owner && row.org == org && row.session == session
    && row.name == r.name && row.credential == Digest(r.digest) && row.agents == Canonical(r.agents)
  }

  lemma SameAsNew(stored: Node, owner: Id, org: Id, session: Id, r: Registration, now: Time)
    ensures SameNode(stored, NewNode(owner, org, session, r, now))
         <==> Holds(stored, owner, org, session, r) && !stored.revoked
    ensures Holds(NewNode(owner, org, session, r, now), owner, org, session, r)
         && !NewNode(owner, org, session, r, now).revoked
  {
    hide Canonical;
  }

  lemma RegisteredRow(s: State, owner: Id, org: Option<Id>, session: Id, r: Registration, now: Time)
    requires RegisterNode(s, owner, org, session, r, now).Commit?
    ensures var t := RegisterNode(s, owner, org, session, r, now).state;
            && org.Some? && r.node in t.nodes && !t.nodes[r.node].revoked
            && Holds(t.nodes[r.node], owner, org.value, session, r)
            && (r.node in s.nodes ==> t == s)
  {
    hide LiveSession, LiveAgent, CredentialTaken, NewNode, SameNode, Holds;
    SameAsNew(if r.node in s.nodes then s.nodes[r.node] else NewNode(owner, org.value, session, r, now), owner,
      org.value, session, r, now);
  }

  lemma SameSets(a: Registration, b: Registration)
    ensures (forall x <- a.agents + b.agents :: x in a.agents && x in b.agents)
         <==> Canonical(a.agents) == Canonical(b.agents)
  {
    CanonicalForgets(a.agents, b.agents);
    if forall x :: x in a.agents <==> x in b.agents {
    } else {
      var x :| (x in a.agents) != (x in b.agents);
      assert x in a.agents + b.agents;
    }
  }

  lemma ReplayOfRow(s: State, owner: Id, org: Id, session: Id, r: Registration, again: Registration, now: Time)
    requires Inv(s) && r.node in s.nodes && !s.nodes[r.node].revoked && Holds(s.nodes[r.node], owner, org, session, r)
    requires again.node == r.node && 0 < |again.agents| <= MAX_NODE_AGENTS
    requires LiveSession(s, session, owner, now) && HasAccess(s, owner)
    ensures SameRequest(r, again) ==> RegisterNode(s, owner, Some(org), session, again, now) == Commit(s)
    ensures !SameRequest(r, again) ==>
      RegisterNode(s, owner, Some(org), session, again, now) ==
        Abort(if forall a <- again.agents :: LiveAgent(s, a, org, owner) then StateConflict else NotFound)
  {
    hide Inv, Canonical, LiveSession, HasAccess, LiveAgent, NewNode, SameNode;
    SameSets(r, again);
    StillLive(s, r.node);
    SameAsNew(s.nodes[r.node], owner, org, session, again, now);
    if SameRequest(r, again) {
      ScopeLive(s, r, again, owner, org);
    }
  }

  lemma ScopeLive(s: State, r: Registration, again: Registration, owner: Id, org: Id)
    requires SameRequest(r, again) && forall a <- Canonical(r.agents) :: LiveAgent(s, a, org, owner)
    ensures forall a <- again.agents :: LiveAgent(s, a, org, owner)
  {
    hide LiveAgent;
    Preservation.CanonicalMembers(r.agents);
    forall a | a in again.agents
      ensures LiveAgent(s, a, org, owner)
    {
      assert a in r.agents + again.agents;
    }
  }

  lemma StillLive(s: State, n: Id)
    requires Inv(s) && n in s.nodes && !s.nodes[n].revoked && HasAccess(s, s.nodes[n].owner)
    ensures forall a <- s.nodes[n].agents :: LiveAgent(s, a, s.nodes[n].org, s.nodes[n].owner)
  {
    hide Inv;
    Preservation.NodeOf(s, n);
    var node := s.nodes[n];
    forall a | a in node.agents
      ensures LiveAgent(s, a, node.org, node.owner)
    {
      var i :| 0 <= i < |node.agents| && node.agents[i] == a;
      assert OwnsAgent(s.agents, node.agents[i], node.org, node.owner);
      Machines.AgentSeat(s, a);
    }
  }

  /**
   Main result. As long as its session is there, a registration keeps exactly the scope it
   asked for. While device, session and access live, repeating it with any order
   and repetition of the same agents changes nothing and is accepted; anything else under
   the same device id is refused.
   */
  lemma ReplayIsIdempotent(states: seq<State>, actions: seq<Control.Action>, i: nat, j: nat,
      again: Registration, now: Time)
    requires Control.Trace(states, actions) && i < j < |states|
    requires actions[i].DoRegisterNode? && Control.Execute(states[i], actions[i]).Commit?
    requires actions[i].session in states[j].sessions
    ensures var a, r, t := actions[i], actions[i].registration, states[j];
      && a.home.Some? && r.node in t.nodes && Holds(t.nodes[r.node], a.owner, a.home.value, a.session, r)
      && (!t.nodes[r.node].revoked && LiveSession(t, a.session, a.owner, now) && HasAccess(t, a.owner)
          && again.node == r.node && 0 < |again.agents| <= MAX_NODE_AGENTS ==>
            RegisterNode(t, a.owner, a.home, a.session, again, now) ==
              if SameRequest(r, again) then Commit(t)
              else if forall x <- again.agents :: LiveAgent(t, x, a.home.value, a.owner) then Abort(StateConflict)
              else Abort(NotFound))
  {
    hide Inv, Control.Allowed, RegisterNode, LiveSession, HasAccess, LiveAgent, SameRequest, Holds;
    var a, t := actions[i], states[j];
    var r := a.registration;
    Preservation.RunKeeps(states, actions, i + 1);
    Preservation.RunKeeps(states, actions, j);
    RegisteredRow(states[i], a.owner, a.home, a.session, r, a.now);
    assert states[i + 1] == RegisterNode(states[i], a.owner, a.home, a.session, r, a.now).state;
    hide Control.Execute, Control.Step;
    HoldsOn(states[i + 1].nodes[r.node], states[i + 1].nodes[r.node], a.owner, a.home.value, a.session, r);
    Departures.GrantStays(states, actions, i + 1, j, r.node);
    HoldsOn(states[i + 1].nodes[r.node], t.nodes[r.node], a.owner, a.home.value, a.session, r);
    if !t.nodes[r.node].revoked && LiveSession(t, a.session, a.owner, now) && HasAccess(t, a.owner)
       && again.node == r.node && 0 < |again.agents| <= MAX_NODE_AGENTS {
      ReplayOfRow(t, a.owner, a.home.value, a.session, r, again, now);
    }
  }

  lemma HoldsOn(before: Node, after: Node, owner: Id, org: Id, session: Id, r: Registration)
    requires Holds(before, owner, org, session, r) && Fences.SameGrant(before, after)
    ensures Holds(after, owner, org, session, r) && before.session == session
  {
    hide Canonical;
  }
}
