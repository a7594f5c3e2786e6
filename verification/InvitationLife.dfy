/** The life of one invitation: offered once, used at most once, deleted only when spent. */
module InvitationLife {
  import opened Records
  import opened Schema
  import opened Invitations
  import opened Control
  import opened Frames
  import Accounts
  import InvalidationLog
  import Organizations
  import Preservation

  // ---- the four events of a life ------------------------------------------------------

  predicate Offers(s: State, a: Action, i: Id) {
    a.DoInvite? && a.id == i && CreateInvitation(s, i, a.org, a.token, a.role, a.actor, a.expires).Commit?
  }

  /** The invitation is used, by a signed-in user or by a new account. */
  ghost predicate Grants(s: State, a: Action, i: Id) {
    || (a.DoMutate? && a.command.Join? && Organizations.Mutate(s, a.actor, a.home, a.command, a.now).Commit?
        && InvitationByToken(s.invitations, a.command.token) == Some(i))
    || (a.DoAccept? && AcceptInvitation(s, a.token, a.account, a.now).Commit?
        && InvitationByToken(s.invitations, a.token) == Some(i))
  }

  predicate Revokes(s: State, a: Action, i: Id) {
    a.DoRevokeInvitation? && a.id == i && RevokeInvitation(s, a.org, i, a.actor, a.now).Commit?
  }

  predicate Deletes(s: State, a: Action, i: Id) {
    a.DoDeleteInvitation? && a.id == i && DeleteInvitation(s, a.org, i, a.actor, a.now).Commit?
  }

  /** Who gets the seat. */
  function Newcomer(a: Action): Id
    requires a.DoMutate? || a.DoAccept?
  {
    if a.DoMutate? then a.actor else a.account.user
  }

  predicate Settled(inv: Invitation) {
    inv.acceptedAt.Some? || inv.revokedAt.Some?
  }

  /** What one step does to the row of `i`, by the event that happens to it. */
  ghost predicate Lives(s: State, t: State, a: Action, i: Id) {
    && s.issuedInvitations <= t.issuedInvitations
    && (Grants(s, a, i) ==>
          && i in s.invitations && Organizations.Open(s.invitations[i], a.now)
          && i in t.invitations
          && t.invitations[i] == s.invitations[i].(acceptedBy := Some(Newcomer(a)), acceptedAt := Some(a.now))
          && t.seats
               == s.seats[Seat(s.invitations[i].org, Newcomer(a)) := Membership(s.invitations[i].role, true, a.now)])
    && (Revokes(s, a, i) ==>
          && i in s.invitations && Organizations.Open(s.invitations[i], a.now)
          && i in t.invitations && t.invitations[i] == s.invitations[i].(revokedAt := Some(a.now)))
    && (Deletes(s, a, i) ==>
          && i in s.invitations && Terminal(s.invitations[i], a.now)
          && t.invitations == s.invitations - {i} && t.seats == s.seats)
    && (Offers(s, a, i) ==>
          && i !in s.issuedInvitations && Manages(s, a.org, a.actor, a.role)
          && i in t.invitations
          && t.invitations[i] == Invitation(a.org, a.token, a.role, a.actor, a.expires, None, None, None))
    && (i in s.invitations && !Grants(s, a, i) && !Revokes(s, a, i) && !Deletes(s, a, i) ==>
          i in t.invitations && t.invitations[i] == s.invitations[i])
    && (i !in s.invitations && i in t.invitations ==> Offers(s, a, i) || Founding(a))
  }

  /** Transactions in which nothing happens to any invitation. */
  lemma QuietLives(s: State, t: State, a: Action, i: Id)
    requires t.invitations == s.invitations && s.issuedInvitations <= t.issuedInvitations
    requires !Grants(s, a, i) && !Revokes(s, a, i) && !Deletes(s, a, i) && !Offers(s, a, i)
    ensures Lives(s, t, a, i)
  {
    hide Grants, Revokes, Deletes, Offers;
  }

  lemma OfferLives(s: State, a: Action, i: Id)
    requires a.DoInvite? && a.id !in s.issuedInvitations && s.invitations.Keys <= s.issuedInvitations
    ensures Lives(s, CreateInvitation(s, a.id, a.org, a.token, a.role, a.actor, a.expires).After(s), a, i)
  {
    hide Manages;
    var tx := CreateInvitation(s, a.id, a.org, a.token, a.role, a.actor, a.expires);
    if tx.Abort? {
      QuietLives(s, s, a, i);
    } else {
      hide Organizations.Open, Terminal, RevokeInvitation, DeleteInvitation, Organizations.Mutate, AcceptInvitation;
    }
  }

  /** An action is an event of one kind at most. */
  lemma OneKind(s: State, a: Action, i: Id)
    ensures a.DoRevokeInvitation? ==> !Grants(s, a, i) && !Offers(s, a, i) && !Deletes(s, a, i)
    ensures a.DoDeleteInvitation? ==> !Grants(s, a, i) && !Offers(s, a, i) && !Revokes(s, a, i)
  {
    hide Organizations.Mutate, AcceptInvitation, CreateInvitation, RevokeInvitation, DeleteInvitation;
  }

  lemma InvitationIssued(s: State)
    requires Inv(s)
    ensures s.invitations.Keys <= s.issuedInvitations
  {
    hide AccountsFit, SeatsFit, SessionsFit, AgentsFit, NodesFit, NodesBacked, PlansFit, ReceiptsFit, SetupFits,
      InvalidationLog.Ordered, InvitationFits;
  }

  lemma RevokeLives(s: State, a: Action, i: Id)
    requires a.DoRevokeInvitation?
    ensures Lives(s, RevokeInvitation(s, a.org, a.id, a.actor, a.now).After(s), a, i)
  {
    hide Manages, Organizations.Open, Grants, Offers, Deletes;
    OneKind(s, a, i);
  }

  lemma DeleteLives(s: State, a: Action, i: Id)
    requires a.DoDeleteInvitation?
    ensures Lives(s, DeleteInvitation(s, a.org, a.id, a.actor, a.now).After(s), a, i)
  {
    hide Manages, Terminal, Grants, Offers, Revokes;
    OneKind(s, a, i);
  }

  lemma JoinLives(s: State, a: Action, i: Id)
    requires a.DoMutate? && a.command.Join?
    ensures Lives(s, Organizations.Mutate(s, a.actor, a.home, a.command, a.now).After(s), a, i)
  {
    hide Working, HasOrg, Organizations.Open, ActiveOrg, InvalidationLog.Append;
  }

  lemma AcceptLives(s: State, a: Action, i: Id)
    requires a.DoAccept?
    ensures Lives(s, AcceptInvitation(s, a.token, a.account, a.now).After(s), a, i)
  {
    hide UsernameTaken, Organizations.Open, ActiveOrg;
  }

  lemma NothingHappens(s: State, a: Action, i: Id)
    requires !InvitationAction(a) && !a.DoAccept? && !(a.DoMutate? && a.command.Join?)
    ensures !Grants(s, a, i) && !Revokes(s, a, i) && !Deletes(s, a, i) && !Offers(s, a, i)
  {
    hide Organizations.Mutate, AcceptInvitation, CreateInvitation, RevokeInvitation, DeleteInvitation;
  }

  lemma BlankLives(s: State, t: State, a: Action, i: Id)
    requires Founding(a) && i !in s.invitations && s.issuedInvitations <= t.issuedInvitations
    requires !Grants(s, a, i) && !Revokes(s, a, i) && !Deletes(s, a, i) && !Offers(s, a, i)
    ensures Lives(s, t, a, i)
  {
    hide Grants, Revokes, Deletes, Offers;
  }

  lemma FoundedLives(s: State, t: State, a: Action, i: Id)
    requires Founded(s, t, a) && Allowed(s, a) && Founding(a)
    requires !Grants(s, a, i) && !Revokes(s, a, i) && !Deletes(s, a, i) && !Offers(s, a, i)
    ensures Lives(s, t, a, i)
  {
    hide Inv, Grants, Revokes, Deletes, Offers;
    BlankLives(s, t, a, i);
  }

  lemma FoundingLives(s: State, a: Action, i: Id)
    requires Inv(s) && Allowed(s, a) && Founding(a)
    ensures Lives(s, Step(s, a), a, i)
  {
    hide Inv, Lives, Grants, Revokes, Deletes, Offers, Step, Execute, Allowed, Founded;
    NothingHappens(s, a, i);
    FoundedFrame(s, a);
    if Step(s, a) == s {
      QuietLives(s, s, a, i);
    } else {
      FoundedLives(s, Step(s, a), a, i);
    }
  }

  lemma SameInvitations(s: State, t: State)
    requires AccountsOnly(s, t) || SessionsOnly(s, t) || DevicesOnly(s, t) || BillingOnly(s, t) || SeatsOnly(s, t)
          || OrganizationsOnly(s, t)
    ensures t.invitations == s.invitations && t.issuedInvitations == s.issuedInvitations
  {
    hide AccountsOnly, SessionsOnly, DevicesOnly, BillingOnly, SeatsOnly, OrganizationsOnly;
    if AccountsOnly(s, t) {
      AccountsRest(s, t);
    } else if SessionsOnly(s, t) {
      SessionsRest(s, t);
    } else if DevicesOnly(s, t) {
      DevicesRest(s, t);
    } else if BillingOnly(s, t) {
      BillingRest(s, t);
    } else if SeatsOnly(s, t) {
      SeatsRest(s, t);
    } else {
      OrganizationsRest(s, t);
    }
  }

  /** Account changes, sessions, devices, plans, and the other organization commands. */
  lemma ElsewhereLives(s: State, a: Action, i: Id)
    requires !Founding(a) && !InvitationAction(a) && !a.DoAccept? && !(a.DoMutate? && a.command.Join?)
    ensures Lives(s, Step(s, a), a, i)
  {
    hide Step, Execute, Lives, Grants, Revokes, Deletes, Offers, AccountsOnly, SessionsOnly, DevicesOnly, BillingOnly,
      SeatsOnly, OrganizationsOnly;
    NothingHappens(s, a, i);
    if AccountAction(a) {
      AccountFrame(s, a);
    } else if SessionAction(a) {
      SessionFrame(s, a);
    } else if DeviceAction(a) {
      DeviceFrame(s, a);
    } else if BillingAction(a) {
      BillingFrame(s, a);
    } else if a.DoUpdateMember? {
      UpdateMemberFrame(s, a);
    } else {
      CommandFrame(s, a);
    }
    SameInvitations(s, Step(s, a));
    QuietLives(s, Step(s, a), a, i);
  }

  lemma StepLives(s: State, a: Action, i: Id)
    requires Inv(s) && Allowed(s, a)
    ensures Lives(s, Step(s, a), a, i)
  {
    InvitationIssued(s);
    hide Inv, Lives, Organizations.Mutate, AcceptInvitation, CreateInvitation, RevokeInvitation, DeleteInvitation;
    if Founding(a) {
      FoundingLives(s, a, i);
    } else if a.DoInvite? {
      OfferLives(s, a, i);
    } else if a.DoRevokeInvitation? {
      RevokeLives(s, a, i);
    } else if a.DoDeleteInvitation? {
      DeleteLives(s, a, i);
    } else if a.DoAccept? {
      AcceptLives(s, a, i);
    } else if a.DoMutate? && a.command.Join? {
      JoinLives(s, a, i);
    } else {
      ElsewhereLives(s, a, i);
    }
  }

  // ---- over runs --------------------------------------------------------------------------

  /** Once known: closed, or its row deleted. The deployment is there, so nothing is ever imported again. */
  predicate Closed(s: State, i: Id) {
    && s.deployment.Some? && i in s.issuedInvitations
    && (i in s.invitations ==> Settled(s.invitations[i]))
  }

  lemma DeploymentStays(s: State, a: Action)
    requires Inv(s) && s.deployment.Some?
    ensures Step(s, a).deployment.Some?
    ensures Founding(a) ==> Step(s, a) == s
  {
    hide Inv, Step;
    if Founding(a) {
      FoundedOnce(s, a);
    } else {
      DeploymentFrame(s, a);
    }
  }

  lemma FoundedOnce(s: State, a: Action)
    requires Inv(s) && s.deployment.Some? && Founding(a)
    ensures Step(s, a) == s
  {
    hide Inv, Accounts.SetupRequired, Accounts.AccountAllowed, TextsFit;
    Preservation.BlankWhenRequired(s);
  }

  lemma ClosedStep(s: State, a: Action, i: Id)
    requires Inv(s) && Allowed(s, a) && Closed(s, i)
    ensures Closed(Step(s, a), i)
  {
    hide Inv, Step, Allowed, Grants, Revokes, Deletes;
    DeploymentStays(s, a);
    StepLives(s, a, i);
  }

  lemma {:induction false} ClosedStays(states: seq<State>, actions: seq<Action>, i: nat, j: nat, id: Id)
    requires Trace(states, actions) && i <= j < |states| && Closed(states[i], id)
    ensures Closed(states[j], id)
    decreases j - i
  {
    hide Inv, Allowed, Step, Closed;
    if i < j {
      ClosedStays(states, actions, i, j - 1, id);
      Preservation.RunKeeps(states, actions, j - 1);
      ClosedStep(states[j - 1], actions[j - 1], id);
    }
  }

  /** Use and revocation close the invitation; only an open, unexpired one is closed. */
  lemma Closes(s: State, a: Action, i: Id)
    requires Inv(s) && Allowed(s, a) && (Grants(s, a, i) || Revokes(s, a, i))
    ensures Closed(Step(s, a), i)
    ensures i in s.invitations && Organizations.Open(s.invitations[i], a.now) && !Closed(s, i)
  {
    hide Inv, Step, Allowed, Grants, Revokes, Deletes, Offers;
    StepLives(s, a, i);
    InvitationIssued(s);
    DeploymentOf(s, i);
    DeploymentStays(s, a);
  }

  /**
   Main result. In any run an invitation is used or revoked at most once, never both, and
   only before its expiry; whatever else is tried with it later does not commit.
   */
  lemma UsedAtMostOnce(states: seq<State>, actions: seq<Action>, j: nat, k: nat, id: Id)
    requires Trace(states, actions) && j < k < |actions|
    requires Grants(states[j], actions[j], id) || Revokes(states[j], actions[j], id)
    ensures !Grants(states[k], actions[k], id) && !Revokes(states[k], actions[k], id)
         && !Offers(states[k], actions[k], id)
    ensures id in states[j].invitations && actions[j].now < states[j].invitations[id].expires
  {
    hide Inv, Allowed, Step, Grants, Revokes, Offers, Closed;
    Preservation.RunKeeps(states, actions, j);
    Closes(states[j], actions[j], id);
    ClosedStays(states, actions, j + 1, k, id);
    Preservation.RunKeeps(states, actions, k);
    if Grants(states[k], actions[k], id) || Revokes(states[k], actions[k], id) {
      Closes(states[k], actions[k], id);
    }
    StepLives(states[k], actions[k], id);
    NotOfferedAgain(states[k], states[k + 1], actions[k], id);
  }

  lemma NotOfferedAgain(s: State, t: State, a: Action, i: Id)
    requires Lives(s, t, a, i) && Closed(s, i)
    ensures !Offers(s, a, i)
  {
    hide Offers, Grants, Revokes, Deletes, Manages;
  }

  /** A deleted invitation was terminal, its deletion moved nobody, and its id stays unusable. */
  lemma DeletionIsFinal(states: seq<State>, actions: seq<Action>, j: nat, k: nat, id: Id)
    requires Trace(states, actions) && j < k < |actions| && Deletes(states[j], actions[j], id)
    ensures id in states[j].invitations && Terminal(states[j].invitations[id], actions[j].now)
    ensures states[j + 1].seats == states[j].seats
    ensures !Grants(states[k], actions[k], id) && !Revokes(states[k], actions[k], id)
         && !Offers(states[k], actions[k], id)
  {
    hide Inv, Allowed, Step, Grants, Revokes, Offers, Deletes;
    Preservation.RunKeeps(states, actions, j);
    StepLives(states[j], actions[j], id);
    InvitationIssued(states[j]);
    DeploymentOf(states[j], id);
    DeploymentStays(states[j], actions[j]);
    ClosedStays(states, actions, j + 1, k, id);
    Preservation.RunKeeps(states, actions, k);
    if Grants(states[k], actions[k], id) || Revokes(states[k], actions[k], id) {
      Closes(states[k], actions[k], id);
    }
    StepLives(states[k], actions[k], id);
  }

  lemma DeploymentOf(s: State, i: Id)
    requires Inv(s) && i in s.invitations
    ensures s.deployment.Some?
  {
    Preservation.BlankWhenRequired(s);
    hide Inv, Accounts.SetupRequired;
    assert s.invitations != map[];
  }
}
