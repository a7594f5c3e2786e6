/** Invitation transactions: internal/storage/auth/invitation.go. */
module Invitations {
  import opened Records
  import Accounts
  import Organizations
  import Schema

  function CreateInvitation(s: State, id: Id, org: Id, token: Id, role: Role, creator: Id, expires: Time): Tx {
    if !Schema.Manages(s, org, creator, role) then Abort(StateConflict)
    else if exists i <- s.invitations.Keys :: s.invitations[i].token == token then Abort(Constraint)
    else Commit(s.(
      invitations := s.invitations[id := Invitation(org, token, role, creator, expires, None, None, None)],
      issuedInvitations := s.issuedInvitations + {id}))
  }

  /** `requireInvitationManager`, as the fault it raises. */
  function InvitationGuard(s: State, org: Id, id: Id, actor: Id): Option<Fault> {
    if id !in s.invitations || s.invitations[id].org != org then Some(InvitationInvalid)
    else if !Schema.Manages(s, org, actor, s.invitations[id].role) then Some(StateConflict)
    else None
  }

  function RevokeInvitation(s: State, org: Id, id: Id, actor: Id, now: Time): Tx {
    var fault := InvitationGuard(s, org, id, actor);
    if fault.Some? then Abort(fault.value)
    else if !Organizations.Open(s.invitations[id], now) then Abort(InvitationInvalid)
    else Commit(s.(invitations := s.invitations[id := s.invitations[id].(revokedAt := Some(now))]))
  }

  predicate Terminal(inv: Invitation, now: Time) {
    inv.acceptedAt.Some? || inv.revokedAt.Some? || inv.expires <= now
  }

  function DeleteInvitation(s: State, org: Id, id: Id, actor: Id, now: Time): Tx {
    var fault := InvitationGuard(s, org, id, actor);
    if fault.Some? then Abort(fault.value)
    else if !Terminal(s.invitations[id], now) then Abort(InvitationInvalid)
    else Commit(s.(invitations := s.invitations - {id}))
  }

  ghost function AcceptInvitation(s: State, token: Id, account: Accounts.NewAccount, now: Time): Tx {
    var i := Schema.InvitationByToken(s.invitations, token);
    if i.None? || s.deployment.None? || !s.deployment.value.active
       || !Schema.ActiveOrg(s.orgs, s.invitations[i.value].org)
       || !Organizations.Open(s.invitations[i.value], now) then Abort(InvitationInvalid)
    else if !Accounts.AccountAllowed(account) then Abort(RequestInvalid)
    else if Schema.UsernameTaken(s, account.username) then Abort(UsernameConflict)
    else
      var inv := s.invitations[i.value];
      var joined := Accounts.AddAccount(s, account, Member, true, now);
      var seated := Organizations.Enter(joined, inv.org, account.user, inv.role, now);
      Commit(Organizations.Accept(seated, i.value, account.user, now))
  }
}
