/**
 Published agents and execution nodes: internal/storage/auth/agent.go and node.go,
 with the canonical agent list of internal/service/auth/node.go.
 */
module Devices {
  import opened Records
  import Organizations
  import Schema
  import Sessions

  // ---- agents -----------------------------------------------------------------

  /** Insert, or rewrite the row with the same organization, owner and source. */
  function PutAgent(agents: map<Id, Agent>, id: Id, row: Agent): map<Id, Agent> {
    if exists a <- agents.Keys :: Schema.SameSource(agents[a], row) then
      map a <- agents :: if Schema.SameSource(agents[a], row) then row else agents[a]
    else agents[id := row]
  }

  function UpsertAgent(s: State, id: Id, org: Option<Id>, owner: Id, source: Id, name: string, avatar: string): Tx {
    if s.deployment.None? || org.None? || !Schema.Standing(s, org.value, owner) then Abort(NotFound)
    else Commit(s.(agents := PutAgent(s.agents, id, Agent(org.value, owner, source, name, avatar, true))))
  }

  // ---- canonical agent lists ----------------------------------------------------

  predicate StrictlySorted(ids: seq<Id>) {
    forall i, j :: 0 <= i < j < |ids| ==> ids[i] < ids[j]
  }

  /** One element of `slices.Sort` and `slices.Compact`: insert unless present. */
  function Insert(id: Id, ids: seq<Id>): seq<Id> {
    if ids == [] then [id]
    else if id < ids[0] then [id] + ids
    else if id == ids[0] then ids
    else [ids[0]] + Insert(id, ids[1..])
  }

  function Canonical(ids: seq<Id>): seq<Id> {
    if ids == [] then [] else Insert(ids[|ids| - 1], Canonical(ids[..|ids| - 1]))
  }

  // ---- nodes --------------------------------------------------------------------

  datatype Registration = Registration(node: Id, name: string, digest: Id, agents: seq<Id>)

  function NewNode(owner: Id, org: Id, session: Id, r: Registration, now: Time): Node {
    Node(org, owner, session, Digest(r.digest), r.name, Canonical(r.agents), now, false)
  }

  /** The replay comparison: everything but the creation time, and not revoked. */
  predicate SameNode(stored: Node, node: Node) {
    stored.(createdAt := node.createdAt) == node && !node.revoked
  }

  predicate CredentialTaken(nodes: map<Id, Node>, credential: Credential) {
    exists n <- nodes.Keys :: nodes[n].credential == credential
  }

  /** Service validation and storage transaction of `RegisterNode`. */
  function RegisterNode(s: State, owner: Id, org: Option<Id>, session: Id, r: Registration, now: Time): Tx {
    if r.agents == [] || |r.agents| > MAX_NODE_AGENTS then Abort(RequestInvalid)
    else if !Schema.LiveSession(s, session, owner, now) then Abort(NotFound)
    else if org.None? || exists a <- r.agents :: !Schema.LiveAgent(s, a, org.value, owner) then Abort(NotFound)
    else
      var node := NewNode(owner, org.value, session, r, now);
      if r.node in s.nodes then
        if SameNode(s.nodes[r.node], node) then Commit(s) else Abort(StateConflict)
      else if CredentialTaken(s.nodes, node.credential) then Abort(StateConflict)
      else Commit(s.(nodes := s.nodes[r.node := node]))
  }

  function TombstoneNode(owner: Id, org: Id, session: Id, node: Id, now: Time): Node {
    Node(org, owner, session, Tombstone(node), "Revoked", [], now, true)
  }

  function RevokeNode(s: State, owner: Id, org: Option<Id>, session: Id, node: Id, now: Time): Tx {
    if node in s.nodes then
      if org != Some(s.nodes[node].org) || owner != s.nodes[node].owner then Abort(NotFound)
      else if s.nodes[node].revoked then Commit(s)
      else Commit(Organizations.Notify(s.(nodes := s.nodes[node := s.nodes[node].(revoked := true)]),
        Sessions.NodeDraft(owner, node, now)))
    else if !Schema.LiveSession(s, session, owner, now) then Abort(NotFound)
    else if org.None? || org.value !in s.orgs then Abort(Constraint)
    else Commit(s.(nodes := s.nodes[node := TombstoneNode(owner, org.value, session, node, now)]))
  }
}
