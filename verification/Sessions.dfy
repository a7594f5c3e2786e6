/** Browser sessions and password receipts: internal/storage/auth/session.go and password.go. */
module Sessions {
  import opened Records
  import InvalidationLog
  import Organizations
  import Schema

  /** Expired or revoked, and no device still hangs on it. */
  function DeadSessions(s: State, now: Time): set<Id> {
    set k <- s.sessions.Keys |
      (s.sessions[k].expires <= now || s.sessions[k].revoked) && !Schema.HoldsLiveNode(s.nodes, k)
  }

  /** The purge and the delete cascade of `execution_nodes.parent_session_id`. */
  function Purge(s: State, now: Time): State {
    var dead := DeadSessions(s, now);
    s.(sessions := map k <- s.sessions | k !in dead :: s.sessions[k],
       nodes := map n <- s.nodes | s.nodes[n].session !in dead :: s.nodes[n])
  }

  function CreateSession(s: State, id: Id, user: Id, token: Id, expires: Time, now: Time): Tx {
    var kept := Purge(s, now);
    if user !in s.access || user !in s.users
       || (exists k <- kept.sessions.Keys :: kept.sessions[k].token == token) then Abort(Constraint)
    else Commit(kept.(
      sessions := kept.sessions[id := Session(user, token, expires, false)],
      users := kept.users[user := kept.users[user].(updatedAt := now)],
      issuedSessions := kept.issuedSessions + {id}))
  }

  ghost function RevokeSession(s: State, token: Id, now: Time): Tx {
    var k := Schema.SessionByToken(s.sessions, token);
    if k.None? || s.sessions[k.value].revoked then Commit(s)
    else Commit(Organizations.Notify(s.(sessions := s.sessions[k.value := s.sessions[k.value].(revoked := true)]),
      Draft(s.sessions[k.value].user, SessionRef(k.value), SessionRevoked, None, false, now)))
  }

  function NodeDraft(user: Id, node: Id, now: Time): Draft {
    Draft(user, NodeRef(node), SessionRevoked, None, false, now)
  }

  function RevokeNodesOf(nodes: map<Id, Node>, owner: Id): map<Id, Node> {
    map n <- nodes :: if nodes[n].owner == owner then nodes[n].(revoked := true) else nodes[n]
  }

  /** The state after a committed password change: receipt, credential, devices, events. */
  function Swapped(s: State, key: Request, next: Hash, rows: seq<Id>, now: Time): State {
    s.(receipts := s.receipts[key := Committed],
       credentials := s.credentials[key.user := next],
       nodes := RevokeNodesOf(s.nodes, key.user),
       log := InvalidationLog.ForNodes(s.log, rows, NodeDraft(key.user, 0, now)))
  }

  /** `TryCommitPasswordChange`: claim the request, swap the credential the caller
      verified, revoke the user's devices. `rows` is the order of the RETURNING rows. */
  function TryCommitPassword(s: State, key: Request, current: Hash, next: Hash, rows: seq<Id>, now: Time): Tx {
    if key in s.receipts then Abort(ReceiptExists)
    else if key.user !in s.users then Abort(Constraint)
    else if key.user !in s.credentials || s.credentials[key.user] != current then Abort(CredentialChanged)
    else Commit(Swapped(s, key, next, rows, now))
  }

  function SettlePassword(s: State, key: Request): Tx {
    if key in s.receipts then Commit(s)
    else if key.user !in s.users then Abort(Constraint)
    else Commit(s.(receipts := s.receipts[key := NotApplied]))
  }
}
