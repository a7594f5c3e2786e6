/** What a committed publication, registration or revocation leaves behind, row by row. */
module DeviceEffects {
  import opened Records
  import opened InvalidationLog
  import opened Schema
  import opened Devices
  import Machines
  import Preservation
  import Replay
  import Sessions

  // ---- publication ----------------------------------------------------------------------

  predicate FromSource(row: Agent, org: Id, owner: Id, source: Id) {
    row.org == org && row.owner == owner && row.source == source
  }

  /** Row `a` is the source's agent, active under the given name and avatar; no other row has changed. */
  ghost predicate Published(s: State, t: State, a: Id, row: Agent) {
    t == s.(agents := t.agents) && OnlyAt(s.agents, t.agents, a) && t.agents[a] == row && row.active
  }

  /** A publication needs only the owner's standing. It rewrites the source's row, also a revoked one, and
      adds one only where the source has none; afterwards the agent is live. */
  lemma Publishes(s: State, id: Id, org: Id, owner: Id, source: Id, name: string, avatar: string)
    requires Inv(s) && id !in s.agents
    ensures var tx := UpsertAgent(s, id, Some(org), owner, source, name, avatar);
            && (tx.Commit? <==> s.deployment.Some? && Standing(s, org, owner))
            && (tx.Commit? ==>
                  var row := Agent(org, owner, source, name, avatar, true);
                  && (forall a <- s.agents.Keys :: FromSource(s.agents[a], org, owner, source) ==>
                        Published(s, tx.state, a, row) && LiveAgent(tx.state, a, org, owner))
                  && ((forall a <- s.agents.Keys :: !FromSource(s.agents[a], org, owner, source)) ==>
                        Published(s, tx.state, id, row) && LiveAgent(tx.state, id, org, owner)))
  {
    hide Inv, PutAgent, OnlyAt;
    var tx := UpsertAgent(s, id, Some(org), owner, source, name, avatar);
    if tx.Commit? {
      var row := Agent(org, owner, source, name, avatar, true);
      OneSource(s);
      forall a | a in s.agents.Keys && FromSource(s.agents[a], org, owner, source)
        ensures Published(s, tx.state, a, row) && LiveAgent(tx.state, a, org, owner)
      {
        PutOver(s.agents, id, a, row);
      }
      if forall a <- s.agents.Keys :: !FromSource(s.agents[a], org, owner, source) {
        PutNew(s.agents, id, row);
      }
    }
  }

  lemma OneSource(s: State)
    requires Inv(s)
    ensures forall a, b :: a in s.agents && b in s.agents && SameSource(s.agents[a], s.agents[b]) ==> a == b
  {
    hide AccountsFit, InvitationsFit, SeatsFit, SessionsFit, NodesFit, NodesBacked, PlansFit, ReceiptsFit, SetupFits,
      Ordered, SameSource;
  }

  lemma PutOver(agents: map<Id, Agent>, id: Id, a: Id, row: Agent)
    requires forall b, c :: b in agents && c in agents && SameSource(agents[b], agents[c]) ==> b == c
    requires a in agents && SameSource(agents[a], row)
    ensures OnlyAt(agents, PutAgent(agents, id, row), a) && PutAgent(agents, id, row)[a] == row
  {
    assert a in agents.Keys;
    forall b | b in agents && SameSource(agents[b], row)
      ensures b == a
    {
      assert SameSource(agents[b], agents[a]);
    }
  }

  lemma PutNew(agents: map<Id, Agent>, id: Id, row: Agent)
    requires forall a <- agents.Keys :: !SameSource(agents[a], row)
    ensures OnlyAt(agents, PutAgent(agents, id, row), id) && PutAgent(agents, id, row)[id] == row
  {
  }

  // ---- registration -----------------------------------------------------------------------

  /** The row is the one asked for: its agents are those of the request, in ascending order and each once. */
  predicate AsAsked(row: Node, owner: Id, org: Id, session: Id, r: Registration) {
    && row.owner == owner && row.org == org && row.session == session && !row.revoked
    && row.name == r.name && row.credential == Digest(r.digest)
    && StrictlySorted(row.agents) && forall x <- row.agents + r.agents :: x in row.agents && x in r.agents
  }

  lemma HoldsAsAsked(row: Node, owner: Id, org: Id, session: Id, r: Registration)
    ensures Replay.Holds(row, owner, org, session, r) && !row.revoked <==> AsAsked(row, owner, org, session, r)
  {
    Preservation.CanonicalMembers(r.agents);
    if AsAsked(row, owner, org, session, r) {
      forall x
        ensures x in row.agents <==> x in Canonical(r.agents)
      {
        assert x in row.agents || x in r.agents ==> x in row.agents + r.agents;
      }
      Replay.SortedUnique(row.agents, Canonical(r.agents));
    }
    if Replay.Holds(row, owner, org, session, r) {
      forall x | x in row.agents + r.agents
        ensures x in row.agents && x in r.agents
      {
      }
    }
  }

  /** Registering succeeds exactly under a live session with one to 32 live agents, for a free device id and
      credential or for the stored device itself. Then the row is as asked for, nothing else has changed, and
      the device can be exchanged wherever the deployment is active. */
  lemma Registers(s: State, owner: Id, org: Id, session: Id, r: Registration, now: Time)
    requires Inv(s)
    ensures RegisterNode(s, owner, Some(org), session, r, now).Commit? <==>
              && 0 < |r.agents| <= 32 && LiveSession(s, session, owner, now)
              && (forall a <- r.agents :: LiveAgent(s, a, org, owner))
              && if r.node in s.nodes then AsAsked(s.nodes[r.node], owner, org, session, r)
                 else forall n <- s.nodes.Keys :: s.nodes[n].credential != Digest(r.digest)
    ensures RegisterNode(s, owner, Some(org), session, r, now).Commit? ==>
              var t := RegisterNode(s, owner, Some(org), session, r, now).state;
              && t == s.(nodes := t.nodes) && OnlyAt(s.nodes, t.nodes, r.node)
              && (r.node in s.nodes ==> t == s)
              && AsAsked(t.nodes[r.node], owner, org, session, r)
              && (r.node !in s.nodes ==> t.nodes[r.node].createdAt == now)
              && (Machines.ExchangeAdmits(t, r.node) <==> s.deployment.Some? && s.deployment.value.active)
  {
    hide Inv, Canonical, AsAsked, Replay.Holds, NewNode, SameNode, LiveSession, LiveAgent;
    var built := NewNode(owner, org, session, r, now);
    var stored := if r.node in s.nodes then s.nodes[r.node] else built;
    Replay.SameAsNew(stored, owner, org, session, r, now);
    HoldsAsAsked(stored, owner, org, session, r);
    HoldsAsAsked(built, owner, org, session, r);
    NewDigest(owner, org, session, r, now);
    if RegisterNode(s, owner, Some(org), session, r, now).Commit? {
      var t := RegisterNode(s, owner, Some(org), session, r, now).state;
      Preservation.RegisterNodeKeeps(s, owner, Some(org), session, r, now);
      Machines.ExchangeDecided(t, r.node);
      hide RegisterNode, Machines.ExchangeAdmits;
      assert r.agents[0] in r.agents;
      Usable(s, t, owner, org, session, r, now);
    }
  }

  lemma NewDigest(owner: Id, org: Id, session: Id, r: Registration, now: Time)
    ensures var row := NewNode(owner, org, session, r, now); row.credential == Digest(r.digest) && row.createdAt == now
  {
  }

  lemma Usable(s: State, t: State, owner: Id, org: Id, session: Id, r: Registration, now: Time)
    requires t == s.(nodes := t.nodes) && r.node in t.nodes && AsAsked(t.nodes[r.node], owner, org, session, r)
    requires LiveSession(s, session, owner, now) && |r.agents| > 0 && LiveAgent(s, r.agents[0], org, owner)
    ensures Machines.Granted(t, r.node) <==> s.deployment.Some? && s.deployment.value.active
  {
    hide StrictlySorted;
  }

  // ---- revocation --------------------------------------------------------------------------

  /** A revocation reaches the owner's own row, or leaves a tombstone from a live session. Either way the
      device is revoked and cannot be exchanged; only a device that was not revoked before is announced. */
  lemma Revokes(s: State, owner: Id, org: Id, session: Id, n: Id, now: Time)
    ensures var tx := RevokeNode(s, owner, Some(org), session, n, now);
            && (tx.Commit? <==>
                  if n in s.nodes then s.nodes[n].org == org && s.nodes[n].owner == owner
                  else LiveSession(s, session, owner, now) && org in s.orgs)
            && (tx.Commit? ==> Revoked(s, tx.state, owner, n, now) && !Machines.ExchangeAdmits(tx.state, n))
            && (tx.Commit? && n !in s.nodes ==>
                  var row := tx.state.nodes[n];
                  row.org == org && row.owner == owner && row.session == session && row.credential == Tombstone(n))
  {
    OneAdded(s.log, Sessions.NodeDraft(owner, n, now));
    NothingAdded(s.log);
    hide LiveSession, Append, Adds, InOrg, Working, LiveAgent;
  }

  ghost predicate Revoked(s: State, t: State, owner: Id, n: Id, now: Time) {
    && t == s.(nodes := t.nodes, log := t.log) && OnlyAt(s.nodes, t.nodes, n) && t.nodes[n].revoked
    && (n in s.nodes ==> t.nodes[n] == s.nodes[n].(revoked := true))
    && Adds(s.log, t.log, if n in s.nodes && !s.nodes[n].revoked
                          then [Draft(owner, NodeRef(n), SessionRevoked, None, false, now)] else [])
  }

  /** Without an organization nothing is published, registered or revoked. */
  lemma NoOrganization(s: State, id: Id, owner: Id, source: Id, name: string, avatar: string, session: Id,
      r: Registration, n: Id, now: Time)
    ensures UpsertAgent(s, id, None, owner, source, name, avatar).Abort?
    ensures RegisterNode(s, owner, None, session, r, now).Abort? && RevokeNode(s, owner, None, session, n, now).Abort?
  {
    hide LiveSession;
  }
}
