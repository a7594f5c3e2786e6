/**
 What a committed sign-in, sign-out or password change leaves behind, row by row, and that a
 sign-out is final.
 */
module SessionEffects {
  import opened Records
  import opened InvalidationLog
  import opened Schema
  import opened Sessions
  import Control
  import Fences
  import Machines
  import Preservation
  import Suspension

  // ---- sign-in ------------------------------------------------------------------------

  /** The purge spares a session that is good at `now`, or that an unrevoked device hangs on. */
  predicate Spared(s: State, k: Id, now: Time) {
    && k in s.sessions
    && ((!s.sessions[k].revoked && now < s.sessions[k].expires)
        || exists n <- s.nodes.Keys :: s.nodes[n].session == k && !s.nodes[n].revoked)
  }

  lemma SparedIs(s: State, k: Id, now: Time)
    ensures Spared(s, k, now) <==> k in s.sessions && k !in DeadSessions(s, now)
  {
  }

  /** The session is added, every session that is not spared is dropped together with its devices,
      and the user's row gets the time; nothing else has happened. */
  ghost predicate SignedIn(s: State, t: State, id: Id, row: Session, now: Time)
    requires row.user in s.users
  {
    && t == s.(sessions := t.sessions, nodes := t.nodes, users := t.users, issuedSessions := s.issuedSessions + {id})
    && id in t.sessions && t.sessions[id] == row
    && (forall k :: k != id ==> (k in t.sessions <==> Spared(s, k, now)))
    && (forall k :: k != id && k in t.sessions ==> t.sessions[k] == s.sessions[k])
    && (forall n :: n in t.nodes <==> n in s.nodes && Spared(s, s.nodes[n].session, now))
    && (forall n :: n in t.nodes ==> t.nodes[n] == s.nodes[n])
    && OnlyAt(s.users, t.users, row.user) && t.users[row.user] == s.users[row.user].(updatedAt := now)
  }

  /** Signing in fails only for want of an account or of a new token; afterwards the session
      resolves until it expires, as long as the account works. */
  lemma SignsIn(s: State, id: Id, user: Id, token: Id, expires: Time, now: Time)
    requires Inv(s) && id !in s.issuedSessions
    ensures CreateSession(s, id, user, token, expires, now).Commit?
         <==> user in s.users && forall k :: Spared(s, k, now) ==> s.sessions[k].token != token
    ensures CreateSession(s, id, user, token, expires, now).Commit? ==>
              var t := CreateSession(s, id, user, token, expires, now).state;
              && user in s.users && SignedIn(s, t, id, Session(user, token, expires, false), now)
              && forall when :: Suspension.Resolves(t, id, when) <==> when < expires && Working(s, user)
  {
    hide Inv, DeadSessions, Spared, SignedIn;
    NewSession(s, id);
    TokenFree(s, token, now);
    if CreateSession(s, id, user, token, expires, now).Commit? {
      SignInRows(s, id, user, token, expires, now);
    }
  }

  lemma SignInRows(s: State, id: Id, user: Id, token: Id, expires: Time, now: Time)
    requires Inv(s) && id !in s.sessions && user in s.users
    requires CreateSession(s, id, user, token, expires, now).Commit?
    ensures SignedIn(s, CreateSession(s, id, user, token, expires, now).state, id,
              Session(user, token, expires, false), now)
  {
    hide Inv, DeadSessions, Spared;
    forall k
      ensures Spared(s, k, now) <==> k in s.sessions && k !in DeadSessions(s, now)
    {
      SparedIs(s, k, now);
    }
    forall n | n in s.nodes
      ensures s.nodes[n].session in s.sessions
    {
      Preservation.NodeOf(s, n);
    }
  }

  lemma NewSession(s: State, id: Id)
    requires Inv(s) && id !in s.issuedSessions
    ensures id !in s.sessions && s.users.Keys == s.access.Keys
  {
    if id in s.sessions {
      Machines.IssuedSession(s, id);
    }
    Preservation.AccountAccess(s);
  }

  lemma TokenFree(s: State, token: Id, now: Time)
    ensures (exists k <- Purge(s, now).sessions.Keys :: Purge(s, now).sessions[k].token == token)
         <==> exists k :: Spared(s, k, now) && s.sessions[k].token == token
  {
    hide Spared, DeadSessions;
    forall k
      ensures Spared(s, k, now) <==> k in Purge(s, now).sessions.Keys
    {
      SparedIs(s, k, now);
    }
  }

  // ---- sign-out -----------------------------------------------------------------------

  lemma OneToken(s: State, token: Id, k: Id)
    requires Inv(s) && k in s.sessions && s.sessions[k].token == token
    ensures SessionByToken(s.sessions, token) == Some(k)
  {
    hide AccountsFit, InvitationsFit, SeatsFit, AgentsFit, NodesFit, NodesBacked, PlansFit, ReceiptsFit, SetupFits,
      Ordered;
  }

  function SignOutDraft(user: Id, k: Id, now: Time): Draft {
    Draft(user, SessionRef(k), SessionRevoked, None, false, now)
  }

  /** The session is revoked, its owner is told once, and nothing else has happened. */
  ghost predicate SignedOut(s: State, t: State, k: Id, now: Time)
    requires k in s.sessions
  {
    && t == s.(sessions := t.sessions, log := t.log)
    && OnlyAt(s.sessions, t.sessions, k) && t.sessions[k] == s.sessions[k].(revoked := true)
    && Adds(s.log, t.log, [SignOutDraft(s.sessions[k].user, k, now)])
  }

  /** Signing out revokes exactly the session of the token and announces exactly that; a token
      of no unrevoked session changes nothing. */
  lemma SignsOut(s: State, token: Id, k: Id, now: Time)
    requires Inv(s) && k in s.sessions && s.sessions[k].token == token
    ensures RevokeSession(s, token, now).Commit?
    ensures var t := RevokeSession(s, token, now).state;
            && Fences.DeadSession(t, k)
            && if s.sessions[k].revoked then t == s else SignedOut(s, t, k, now)
  {
    hide Inv, Append, Adds;
    OneToken(s, token, k);
    Machines.IssuedSession(s, k);
    OneAdded(s.log, SignOutDraft(s.sessions[k].user, k, now));
  }

  lemma UnknownToken(s: State, token: Id, now: Time)
    requires forall k :: k in s.sessions ==> s.sessions[k].token != token
    ensures RevokeSession(s, token, now) == Commit(s)
  {
  }

  /**
   Main result. After a sign-out its session is over for good: it never resolves in a browser
   again, and no device that hangs on it is ever exchanged again.
   */
  lemma SignOutIsFinal(states: seq<State>, actions: seq<Control.Action>, i: nat, j: nat, k: Id)
    requires Control.Trace(states, actions) && i < j < |states| && actions[i].DoRevokeSession?
    requires k in states[i].sessions && states[i].sessions[k].token == actions[i].token
    ensures forall now :: !Suspension.Resolves(states[j], k, now)
    ensures forall n :: n in states[j].nodes && Machines.ExchangeAdmits(states[j], n) ==>
              states[j].nodes[n].session != k
  {
    hide Inv, Control.Allowed, RevokeSession;
    var a := actions[i];
    Preservation.RunKeeps(states, actions, i);
    SignsOut(states[i], a.token, k, a.now);
    assert Fences.DeadSession(states[i + 1], k);
    Fences.FenceStays(states, actions, i + 1, j, 0, k);
    hide Working, InOrg, LiveAgent, Control.Execute;
  }

  // ---- password -----------------------------------------------------------------------

  /** The new hash, the receipt and the revoked devices of the user, and nothing else. */
  ghost predicate Rehashed(s: State, t: State, key: Request, next: Hash) {
    && t == s.(credentials := t.credentials, receipts := t.receipts, nodes := t.nodes, log := t.log)
    && OnlyAt(s.credentials, t.credentials, key.user) && t.credentials[key.user] == next
    && (forall text :: Matches(text, t.credentials[key.user]) <==> text == next.password)
    && OnlyAt(s.receipts, t.receipts, key) && t.receipts[key] == Committed
    && t.nodes.Keys == s.nodes.Keys
    && forall n <- s.nodes.Keys ::
         t.nodes[n] == s.nodes[n].(revoked := s.nodes[n].revoked || s.nodes[n].owner == key.user)
  }

  lemma SwappedIs(s: State, key: Request, next: Hash, rows: seq<Id>, now: Time)
    ensures Rehashed(s, Swapped(s, key, next, rows, now), key, next)
  {
    hide ForNodes;
  }

  /** The swap succeeds exactly for an unclaimed request with the stored hash. */
  lemma SwapsPassword(s: State, key: Request, current: Hash, next: Hash, rows: seq<Id>, now: Time)
    requires s.users.Keys == s.credentials.Keys
    ensures var tx := TryCommitPassword(s, key, current, next, rows, now);
            && (tx.Commit? <==> key !in s.receipts && key.user in s.users && s.credentials[key.user] == current)
            && (tx == Abort(ReceiptExists) <==> key in s.receipts)
            && (tx == Abort(CredentialChanged) <==>
                  key !in s.receipts && key.user in s.users && s.credentials[key.user] != current)
            && (tx.Commit? ==> Rehashed(s, tx.state, key, next))
  {
    SwappedIs(s, key, next, rows, now);
    hide Rehashed, Swapped;
    assert key.user in s.users.Keys <==> key.user in s.credentials.Keys;
  }

  /** Settling writes a not-applied receipt where there is none, and nothing else. */
  lemma Settles(s: State, key: Request)
    ensures SettlePassword(s, key).Commit? <==> key in s.receipts || key.user in s.users
    ensures SettlePassword(s, key).Commit? ==>
              var t := SettlePassword(s, key).state;
              && t == s.(receipts := t.receipts) && OnlyAt(s.receipts, t.receipts, key)
              && t.receipts[key] == if key in s.receipts then s.receipts[key] else NotApplied
  {
  }
}
