/** Suspension and password change leave nothing usable behind. */
module Suspension {
  import opened Records
  import opened Schema
  import Accounts
  import Coherence
  import Control
  import Fences
  import InvalidationLog
  import Machines
  import Organizations
  import Preservation
  import Sessions

  /** `resolveSession` for a browser token: the row it would return exists. */
  predicate Resolves(s: State, k: Id, now: Time) {
    k in s.sessions && !s.sessions[k].revoked && now < s.sessions[k].expires && Working(s, s.sessions[k].user)
  }

  lemma RevokedSessions(sessions: map<Id, Session>, user: Id, k: Id)
    requires k in sessions && sessions[k].user == user
    ensures k in Accounts.RevokeSessionsOf(sessions, user) && Accounts.RevokeSessionsOf(sessions, user)[k].revoked
  {
  }

  lemma SuspensionFences(s: State, user: Id, actor: Id, expected: Organizations.Expected, next: Organizations.Change,
      now: Time, k: Id)
    requires Inv(s) && k in s.sessions && s.sessions[k].user == user && !next.active
    requires Accounts.UpdateDeploymentMember(s, user, actor, expected, next, now).Commit?
    ensures Fences.DeadSession(Accounts.UpdateDeploymentMember(s, user, actor, expected, next, now).state, k)
  {
    hide Inv, Administers, Accounts.AccessVersion, Organizations.RenamedUsers, Accounts.AccessLog,
      Accounts.RevokeSessionsOf;
    Machines.IssuedSession(s, k);
    RevokedSessions(s.sessions, user, k);
  }

  /**
   Main result. Every session a user has when access is taken away is dead for good: after
   access is restored it neither resolves in a browser nor carries a device exchange.
   */
  lemma SuspensionIsFinal(states: seq<State>, actions: seq<Control.Action>, i: nat, j: nat, k: Id)
    requires Control.Trace(states, actions) && i < j < |states|
    requires actions[i].DoUpdateAccess? && !actions[i].next.active && Control.Execute(states[i], actions[i]).Commit?
    requires k in states[i].sessions && states[i].sessions[k].user == actions[i].user
    ensures forall now :: !Resolves(states[j], k, now)
    ensures forall n :: n in states[j].nodes && Machines.ExchangeAdmits(states[j], n) ==>
              states[j].nodes[n].session != k
  {
    hide Inv, Control.Allowed, Accounts.UpdateDeploymentMember;
    var a := actions[i];
    Preservation.RunKeeps(states, actions, i);
    SuspensionFences(states[i], a.user, a.actor, a.expected, a.next, a.now, k);
    assert Fences.DeadSession(states[i + 1], k);
    Fences.FenceStays(states, actions, i + 1, j, 0, k);
    hide Working, InOrg, LiveAgent, Control.Execute;
  }

  // ---- password change ------------------------------------------------------------------

  /** Behind the old log stands exactly one event for each device in `nodes`. */
  ghost predicate DevicesAnnounced(before: seq<Event>, after: seq<Event>, user: Id, nodes: set<Id>, now: Time) {
    && before <= after && |after| == |before| + |nodes|
    && (forall i :: |before| <= i < |after| ==>
          && after[i].body.target.NodeRef? && after[i].body.target.node in nodes
          && after[i].body == Sessions.NodeDraft(user, after[i].body.target.node, now))
    && (forall n <- nodes :: exists i :: |before| <= i < |after| && after[i].body == Sessions.NodeDraft(user, n, now))
  }

  lemma NodesAnnounced(log: seq<Event>, rows: seq<Id>, user: Id, nodes: set<Id>, now: Time)
    requires InvalidationLog.Ordered(log) && Lists(rows, nodes)
    ensures DevicesAnnounced(log, InvalidationLog.ForNodes(log, rows, Sessions.NodeDraft(user, 0, now)),
              user, nodes, now)
  {
    var after := InvalidationLog.ForNodes(log, rows, Sessions.NodeDraft(user, 0, now));
    InvalidationLog.ForNodesShape(log, rows, Sessions.NodeDraft(user, 0, now));
    InvalidationLog.DistinctRows(rows);
    assert UserSet(rows) == nodes;
    forall i | |log| <= i < |after|
      ensures after[i].body.target.NodeRef? && after[i].body.target.node in nodes
           && after[i].body == Sessions.NodeDraft(user, after[i].body.target.node, now)
    {
      assert after[|log| + (i - |log|)].body == Sessions.NodeDraft(user, rows[i - |log|], now);
    }
    forall n | n in nodes
      ensures exists i :: |log| <= i < |after| && after[i].body == Sessions.NodeDraft(user, n, now)
    {
      var i :| 0 <= i < |rows| && rows[i] == n;
      assert after[|log| + i].body == Sessions.NodeDraft(user, n, now);
    }
  }

  /** A committed change leaves the user no live device, touches nobody else's, and writes
      exactly one event for every device it revoked. */
  lemma PasswordChangeRevokes(s: State, key: Request, current: Hash, next: Hash, rows: seq<Id>, now: Time)
    requires Inv(s) && Lists(rows, LiveNodesOf(s.nodes, key.user))
    requires Sessions.TryCommitPassword(s, key, current, next, rows, now).Commit?
    ensures var t := Sessions.TryCommitPassword(s, key, current, next, rows, now).state;
            && LiveNodesOf(t.nodes, key.user) == {}
            && (forall u :: u != key.user ==> LiveNodesOf(t.nodes, u) == LiveNodesOf(s.nodes, u))
            && DevicesAnnounced(s.log, t.log, key.user, LiveNodesOf(s.nodes, key.user), now)
  {
    Coherence.SeatsOf(s);
    hide Inv, Lists, InvalidationLog.ForNodes, LiveNodesOf;
    NodesAnnounced(s.log, rows, key.user, LiveNodesOf(s.nodes, key.user), now);
    SwappedNodes(s.nodes, key.user);
  }

  lemma SwappedNodes(nodes: map<Id, Node>, owner: Id)
    ensures LiveNodesOf(Sessions.RevokeNodesOf(nodes, owner), owner) == {}
    ensures forall u :: u != owner ==> LiveNodesOf(Sessions.RevokeNodesOf(nodes, owner), u) == LiveNodesOf(nodes, u)
  {
    forall u | u != owner
      ensures LiveNodesOf(Sessions.RevokeNodesOf(nodes, owner), u) == LiveNodesOf(nodes, u)
    {
      forall n
        ensures n in LiveNodesOf(Sessions.RevokeNodesOf(nodes, owner), u) <==> n in LiveNodesOf(nodes, u)
      {
      }
    }
  }
}
