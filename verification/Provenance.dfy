/** Where owners and admins come from, and who may change whom. */
module Provenance {
  import opened Records
  import opened Schema
  import opened Organizations
  import opened Control
  import opened Frames
  import Accounts
  import InvalidationLog
  import InvitationLife
  import Invitations
  import Preservation

  // ---- member updates ---------------------------------------------------------------

  /** An organization update is admitted exactly when the actor's live rank is strictly above
      both the member's role and the next one; so nobody updates themself. */
  lemma MemberUpdateByRank(s: State, org: Id, user: Id, actor: Id, expected: Expected, next: Change, now: Time)
    requires user in s.users && user in s.access && Seat(org, user) in s.seats && expected == SeatVersion(s, org, user)
    ensures UpdateMember(s, org, user, actor, expected, next, now).Commit? <==>
              && RenameAllowed(s.users[user].displayName, next.name)
              && expected.active && Working(s, actor) && InOrg(s, org, actor)
              && Rank(expected.role) < Rank(s.seats[Seat(org, actor)].role)
              && Rank(next.role) < Rank(s.seats[Seat(org, actor)].role)
    ensures UpdateMember(s, org, user, user, expected, next, now).Abort?
  {
    hide Working, ChangeSeat, RenameAllowed;
  }

  /** The same for platform access. */
  lemma AccessUpdateByRank(s: State, user: Id, actor: Id, expected: Expected, next: Change, now: Time)
    requires user in s.users && user in s.access && expected == Accounts.AccessVersion(s, user)
    ensures Accounts.UpdateDeploymentMember(s, user, actor, expected, next, now).Commit? <==>
              && RenameAllowed(s.users[user].displayName, next.name)
              && Working(s, actor)
              && Rank(s.access[user].role) < Rank(s.access[actor].role)
              && Rank(next.role) < Rank(s.access[actor].role)
    ensures Accounts.UpdateDeploymentMember(s, user, user, expected, next, now).Abort?
  {
    hide Accounts.ChangeAccess, RenameAllowed;
  }

  // ---- how a role can arise -----------------------------------------------------------

  predicate CrownedBy(s: State, a: Action, org: Id, user: Id) {
    || (a.DoMutate? && a.command.Create? && a.actor == user && a.command.org == org && org !in s.orgs)
    || (a.DoMutate? && a.command.Transfer? && a.home == Some(org) && a.command.target == user
          && IsOwner(s.seats, org, a.actor))
    || (a.DoCreateOwner? && a.account.user == user && a.org == org)
    || (a.DoImport? && IsOwner(a.source.seats, org, user))
  }

  predicate InvitedAdmin(s: State, token: Id, org: Id) {
    exists i <- s.invitations.Keys :: s.invitations[i].token == token && s.invitations[i].org == org
      && s.invitations[i].role == Admin
  }

  predicate PromotedBy(s: State, a: Action, org: Id, user: Id) {
    || (a.DoMutate? && a.command.Transfer? && a.home == Some(org) && a.actor == user && IsOwner(s.seats, org, user))
    || (a.DoUpdateMember? && a.org == org && a.user == user && a.next.role == Admin && IsOwner(s.seats, org, a.actor))
    || (a.DoMutate? && a.command.Join? && a.actor == user && InvitedAdmin(s, a.command.token, org))
    || (a.DoAccept? && a.account.user == user && InvitedAdmin(s, a.token, org))
    || (a.DoImport? && IsAdmin(a.source.seats, org, user))
  }

  /** A role that was not there before has a cause. */
  ghost predicate Caused(s: State, t: State, a: Action, org: Id, user: Id) {
    && (IsOwner(t.seats, org, user) && !IsOwner(s.seats, org, user) ==> CrownedBy(s, a, org, user))
    && (IsAdmin(t.seats, org, user) && !IsAdmin(s.seats, org, user) ==> PromotedBy(s, a, org, user))
  }

  lemma SameSeatsCaused(s: State, t: State, a: Action, org: Id, user: Id)
    requires t.seats == s.seats
    ensures Caused(s, t, a, org, user)
  {
  }

  lemma EvictCaused(s: State, a: Action, org: Id, user: Id, home: Id, rows: seq<Id>, now: Time)
    ensures Caused(s, Evict(s, home, rows, now), a, org, user)
  {
    hide InvalidationLog.ForUsers, RevokeAgents, RevokeNodes, CrownedBy, PromotedBy;
  }

  lemma FoundCaused(s: State, a: Action, org: Id, user: Id)
    requires a.DoMutate? && a.command.Create? && a.command.org !in s.orgs
    ensures Caused(s, Notify(Found(s, a.command.org, a.command.name, a.actor, a.now),
              OrgDraft(a.actor, a.command.org, false, a.now)), a, org, user)
  {
    hide InvalidationLog.Append, PromotedBy;
  }

  /** A seat taken through an invitation. */
  lemma InvitedCaused(s: State, t: State, a: Action, org: Id, user: Id, who: Id, i: Id, now: Time)
    requires i in s.invitations && s.invitations[i].role != Owner
    requires t.seats == s.seats[Seat(s.invitations[i].org, who) := Membership(s.invitations[i].role, true, now)]
    requires InvitedAdmin(s, s.invitations[i].token, s.invitations[i].org) ==>
              PromotedBy(s, a, s.invitations[i].org, who)
    ensures Caused(s, t, a, org, user)
  {
    hide CrownedBy, PromotedBy;
    assert i in s.invitations.Keys;
  }

  lemma JoinCaused(s: State, a: Action, org: Id, user: Id)
    requires Inv(s) && a.DoMutate? && a.command.Join?
    ensures Caused(s, JoinByToken(s, a.actor, a.command.token, a.now).After(s), a, org, user)
  {
    hide Inv, InvalidationLog.Append, Open, ActiveOrg, Caused, InvitedAdmin;
    SameSeatsCaused(s, s, a, org, user);
    var i := InvitationByToken(s.invitations, a.command.token);
    var tx := JoinByToken(s, a.actor, a.command.token, a.now);
    if tx.Commit? {
      Preservation.InvitationOf(s, i.value);
      InvitedCaused(s, tx.state, a, org, user, a.actor, i.value, a.now);
    }
  }

  lemma TransferCaused(s: State, a: Action, org: Id, user: Id, home: Id, target: Id)
    requires a.DoMutate? && a.command == Transfer(target) && a.home == Some(home) && IsOwner(s.seats, home, a.actor)
          && Seat(home, target) in s.seats
    ensures Caused(s, Notify(Notify(Handover(s, home, a.actor, target, a.now), OrgDraft(target, home, false, a.now)),
              OrgDraft(a.actor, home, false, a.now)), a, org, user)
  {
    hide InvalidationLog.Append;
  }

  lemma HomeCaused(s: State, a: Action, org: Id, user: Id, home: Id)
    requires a.DoMutate? && a.home == Some(home) && InOrg(s, home, a.actor)
    ensures Caused(s, MutateHome(s, a.actor, home, a.command, a.now).After(s), a, org, user)
  {
    hide Caused, HasAccess, InvalidationLog.ForUsers, Evict, Notify, Handover;
    SameSeatsCaused(s, s, a, org, user);
    var tx := MutateHome(s, a.actor, home, a.command, a.now);
    if tx.Commit? {
      if a.command.Leave? {
        EvictCaused(s, a, org, user, home, [a.actor], a.now);
      } else if a.command.Transfer? {
        TransferCaused(s, a, org, user, home, a.command.target);
      } else if a.command.Rename? {
        SameSeatsCaused(s, tx.state, a, org, user);
      } else if a.command.Dissolve? {
        DissolveCaused(s, a, org, user, home, a.command.rows, a.now);
      }
    }
  }

  lemma DissolveCaused(s: State, a: Action, org: Id, user: Id, home: Id, rows: seq<Id>, now: Time)
    requires home in s.orgs
    ensures var out := Evict(s, home, rows, now);
            && home in out.orgs
            && Caused(s, out.(orgs := out.orgs[home := out.orgs[home].(active := false)]), a, org, user)
  {
    hide InvalidationLog.ForUsers, RevokeAgents, RevokeNodes, CrownedBy, PromotedBy;
  }

  lemma MutateCaused(s: State, a: Action, org: Id, user: Id)
    requires Inv(s) && a.DoMutate? && Admissible(s, a.home, a.command)
    ensures Caused(s, Mutate(s, a.actor, a.home, a.command, a.now).After(s), a, org, user)
  {
    hide Inv, Caused, Working, HasOrg, MutateHome, JoinByToken, HasAccess, Notify, Found;
    SameSeatsCaused(s, s, a, org, user);
    if a.command.Create? {
      FoundCaused(s, a, org, user);
    } else if a.command.Join? {
      JoinCaused(s, a, org, user);
    } else if a.home.Some? && InOrg(s, a.home.value, a.actor) {
      HomeCaused(s, a, org, user, a.home.value);
    }
  }

  lemma UpdateMemberCaused(s: State, a: Action, org: Id, user: Id)
    requires a.DoUpdateMember?
    ensures Caused(s, Step(s, a), a, org, user)
  {
    hide Working, SeatLog, RenamedUsers, RevokeAgents, RevokeNodes;
  }

  lemma AcceptCaused(s: State, a: Action, org: Id, user: Id)
    requires Inv(s) && a.DoAccept?
    ensures Caused(s, Step(s, a), a, org, user)
  {
    hide Inv, Open, ActiveOrg, UsernameTaken, Caused, InvitedAdmin;
    SameSeatsCaused(s, s, a, org, user);
    var i := InvitationByToken(s.invitations, a.token);
    if Execute(s, a).Commit? {
      Preservation.InvitationOf(s, i.value);
      InvitedCaused(s, Step(s, a), a, org, user, a.account.user, i.value, a.now);
    }
  }

  lemma FoundedCaused(s: State, t: State, a: Action, org: Id, user: Id)
    requires Founded(s, t, a) && Founding(a)
    ensures Caused(s, t, a, org, user)
  {
    hide Caused;
    if a.DoImport? {
      ImportCaused(s, t, a, org, user);
    } else {
      FirstOwnerCaused(s, t, a, org, user);
    }
  }

  lemma FoundingCaused(s: State, a: Action, org: Id, user: Id)
    requires Inv(s) && Founding(a)
    ensures Caused(s, Step(s, a), a, org, user)
  {
    hide Inv, Caused, Step, Execute, Founded;
    SameSeatsCaused(s, s, a, org, user);
    FoundedFrame(s, a);
    if Step(s, a) != s {
      FoundedCaused(s, Step(s, a), a, org, user);
    }
  }

  lemma ImportCaused(s: State, t: State, a: Action, org: Id, user: Id)
    requires a.DoImport? && t.seats == a.source.seats
    ensures Caused(s, t, a, org, user)
  {
  }

  lemma FirstOwnerCaused(s: State, t: State, a: Action, org: Id, user: Id)
    requires a.DoCreateOwner? && s.seats == map[]
          && t.seats == s.seats[Seat(a.org, a.account.user) := Membership(Owner, true, a.now)]
    ensures Caused(s, t, a, org, user)
  {
  }

  lemma OthersCaused(s: State, t: State, a: Action, org: Id, user: Id)
    requires AccountsOnly(s, t) || InvitationsOnly(s, t) || SessionsOnly(s, t) || DevicesOnly(s, t) || BillingOnly(s, t)
    ensures Caused(s, t, a, org, user)
  {
    hide AccountsOnly, InvitationsOnly, SessionsOnly, DevicesOnly, BillingOnly;
    if AccountsOnly(s, t) {
      AccountsRest(s, t);
    } else if InvitationsOnly(s, t) {
      InvitationsRest(s, t);
    } else if SessionsOnly(s, t) {
      SessionsRest(s, t);
    } else if DevicesOnly(s, t) {
      DevicesRest(s, t);
    } else {
      BillingRest(s, t);
    }
    SameSeatsCaused(s, t, a, org, user);
  }

  lemma QuietCaused(s: State, a: Action, org: Id, user: Id)
    requires !Founding(a) && !a.DoMutate? && !a.DoUpdateMember? && !a.DoAccept?
    ensures Caused(s, Step(s, a), a, org, user)
  {
    hide Step, Execute, Caused, AccountsOnly, InvitationsOnly, SessionsOnly, DevicesOnly, BillingOnly;
    if AccountAction(a) {
      AccountFrame(s, a);
    } else if InvitationAction(a) {
      InvitationFrame(s, a);
    } else if SessionAction(a) {
      SessionFrame(s, a);
    } else if DeviceAction(a) {
      DeviceFrame(s, a);
    } else {
      BillingFrame(s, a);
    }
    OthersCaused(s, Step(s, a), a, org, user);
  }

  lemma StepCaused(s: State, a: Action, org: Id, user: Id)
    requires Inv(s) && Allowed(s, a)
    ensures Caused(s, Step(s, a), a, org, user)
  {
    hide Inv, Caused, Mutate;
    if Founding(a) {
      FoundingCaused(s, a, org, user);
    } else if a.DoMutate? {
      MutateCaused(s, a, org, user);
    } else if a.DoUpdateMember? {
      UpdateMemberCaused(s, a, org, user);
    } else if a.DoAccept? {
      AcceptCaused(s, a, org, user);
    } else {
      QuietCaused(s, a, org, user);
    }
  }

  // ---- over runs ----------------------------------------------------------------------

  /** Main result. Whoever owns an organization now, and did not before, founded it or received
      it from the owner of that moment, and has owned it ever since. */
  lemma {:induction false} OwnersTrace(states: seq<State>, actions: seq<Action>, i: nat, j: nat, org: Id, user: Id)
    requires Trace(states, actions) && i <= j < |states|
    requires !IsOwner(states[i].seats, org, user) && IsOwner(states[j].seats, org, user)
    ensures exists k :: i <= k < j && CrownedBy(states[k], actions[k], org, user)
              && forall m :: k < m <= j ==> IsOwner(states[m].seats, org, user)
    decreases j - i
  {
    hide Inv, Allowed, Step, CrownedBy, IsOwner;
    if i < j {
      Preservation.RunKeeps(states, actions, j - 1);
      if IsOwner(states[j - 1].seats, org, user) {
        OwnersTrace(states, actions, i, j - 1, org, user);
      } else {
        StepCaused(states[j - 1], actions[j - 1], org, user);
        assert CrownedBy(states[j - 1], actions[j - 1], org, user);
      }
    }
  }

  /** A promotion in person: the owner hands over, or the owner rewrites the role. */
  predicate OwnerPromotes(s: State, a: Action, org: Id, user: Id) {
    || (a.DoMutate? && a.command.Transfer? && a.home == Some(org) && a.actor == user && IsOwner(s.seats, org, user))
    || (a.DoUpdateMember? && a.org == org && a.user == user && a.next.role == Admin && IsOwner(s.seats, org, a.actor))
  }

  ghost predicate AdmitsAdmin(s: State, a: Action, v: Id, org: Id, user: Id) {
    && InvitationLife.Grants(s, a, v) && InvitationLife.Newcomer(a) == user
    && v in s.invitations && s.invitations[v].org == org && s.invitations[v].role == Admin
  }

  lemma AdmittedBy(s: State, a: Action, org: Id, user: Id)
    requires Inv(s) && Allowed(s, a) && s.deployment.Some?
    requires IsAdmin(Step(s, a).seats, org, user) && !IsAdmin(s.seats, org, user)
    ensures OwnerPromotes(s, a, org, user) || exists v :: AdmitsAdmin(s, a, v, org, user)
  {
    hide Inv, IsAdmin, Mutate, Invitations.AcceptInvitation, Allowed;
    StepCaused(s, a, org, user);
    InvitationLife.DeploymentStays(s, a);
    if !OwnerPromotes(s, a, org, user) {
      assert PromotedBy(s, a, org, user);
      if a.DoMutate? {
        AdmittedInvitation(s, a, a.command.token, org, user);
      } else {
        AdmittedInvitation(s, a, a.token, org, user);
      }
    }
  }

  lemma AdmittedInvitation(s: State, a: Action, token: Id, org: Id, user: Id)
    requires Inv(s) && InvitedAdmin(s, token, org)
    requires (a.DoMutate? && a.command == Join(token) && Mutate(s, a.actor, a.home, a.command, a.now).Commit?)
          || (a.DoAccept? && a.token == token && Invitations.AcceptInvitation(s, a.token, a.account, a.now).Commit?)
    requires InvitationLife.Newcomer(a) == user
    ensures exists v :: AdmitsAdmin(s, a, v, org, user)
  {
    hide Mutate, Invitations.AcceptInvitation;
    var i :| i in s.invitations.Keys && s.invitations[i].token == token && s.invitations[i].org == org
        && s.invitations[i].role == Admin;
    OneToken(s, i, token);
    assert AdmitsAdmin(s, a, i, org, user);
  }

  lemma OneToken(s: State, i: Id, token: Id)
    requires Inv(s) && i in s.invitations && s.invitations[i].token == token
    ensures InvitationByToken(s.invitations, token) == Some(i)
  {
    hide AccountsFit, SeatsFit, SessionsFit, AgentsFit, NodesFit, NodesBacked, PlansFit, ReceiptsFit, SetupFits,
      InvalidationLog.Ordered, InvitationFits;
  }

  /** An admin invitation is the work of the owner of its organization at that moment. */
  ghost predicate OwnerInvites(s: State, a: Action, v: Id, org: Id) {
    InvitationLife.Offers(s, a, v) && a.org == org && a.role == Admin && IsOwner(s.seats, org, a.actor)
  }

  lemma AdminOffer(s: State, a: Action, v: Id, org: Id)
    requires Inv(s) && Allowed(s, a) && s.deployment.Some? && v !in s.invitations
    requires v in Step(s, a).invitations && Step(s, a).invitations[v].org == org
          && Step(s, a).invitations[v].role == Admin
    ensures OwnerInvites(s, a, v, org)
  {
    InvitationLife.StepLives(s, a, v);
    Preservation.BlankWhenRequired(s);
    InvitationLife.DeploymentStays(s, a);
    hide Inv, Allowed, Step, InvitationLife.Offers, Accounts.SetupRequired, Working;
  }

  lemma OfferStays(s: State, a: Action, v: Id)
    requires Inv(s) && Allowed(s, a) && v in s.invitations && v in Step(s, a).invitations
    ensures Step(s, a).invitations[v].org == s.invitations[v].org
         && Step(s, a).invitations[v].role == s.invitations[v].role
  {
    InvitationLife.StepLives(s, a, v);
    hide Inv, Allowed, Step, InvitationLife.Grants, InvitationLife.Revokes, InvitationLife.Deletes,
      InvitationLife.Offers;
  }

  lemma {:induction false} InvitationOrigin(states: seq<State>, actions: seq<Action>, i: nat, j: nat, v: Id, org: Id)
    requires Trace(states, actions) && i <= j < |states| && states[i].deployment.Some?
    requires v in states[j].invitations && states[j].invitations[v].org == org && states[j].invitations[v].role == Admin
    ensures (v in states[i].invitations && states[i].invitations[v].org == org
              && states[i].invitations[v].role == Admin)
         || exists m :: i <= m < j && OwnerInvites(states[m], actions[m], v, org)
    decreases j - i
  {
    hide Inv, Allowed, Step, OwnerInvites;
    if i < j {
      DeploymentRuns(states, actions, i, j - 1);
      Preservation.RunKeeps(states, actions, j - 1);
      if v in states[j - 1].invitations {
        OfferStays(states[j - 1], actions[j - 1], v);
        InvitationOrigin(states, actions, i, j - 1, v, org);
      } else {
        AdminOffer(states[j - 1], actions[j - 1], v, org);
      }
    }
  }

  lemma {:induction false} DeploymentRuns(states: seq<State>, actions: seq<Action>, i: nat, j: nat)
    requires Trace(states, actions) && i <= j < |states| && states[i].deployment.Some?
    ensures states[j].deployment.Some?
    decreases j - i
  {
    hide Inv, Allowed, Step;
    if i < j {
      DeploymentRuns(states, actions, i, j - 1);
      Preservation.RunKeeps(states, actions, j - 1);
      InvitationLife.DeploymentStays(states[j - 1], actions[j - 1]);
    }
  }

  /** The invitation that made an admin was the owner's, or was already there when the run began. */
  ghost predicate OwnerInvited(states: seq<State>, actions: seq<Action>, i: nat, k: nat, v: Id, org: Id)
    requires i <= k < |actions| < |states|
  {
    || (v in states[i].invitations && states[i].invitations[v].org == org && states[i].invitations[v].role == Admin)
    || exists m :: i <= m < k && OwnerInvites(states[m], actions[m], v, org)
  }

  /** Step `k` made `user` an admin, by the owner's hand. */
  ghost predicate AdminCause(states: seq<State>, actions: seq<Action>, i: nat, k: nat, org: Id, user: Id)
    requires i <= k < |actions| < |states|
  {
    || OwnerPromotes(states[k], actions[k], org, user)
    || exists v :: AdmitsAdmin(states[k], actions[k], v, org, user) && OwnerInvited(states, actions, i, k, v, org)
  }

  /**
   Main result. Whoever is admin now and was not at the start of the run became one by
   an owner's rewrite, by handing over their own ownership, or through an invitation that the
   owner of that moment had made, and has been admin ever since.
   */
  lemma {:induction false} AdminsTrace(states: seq<State>, actions: seq<Action>, i: nat, j: nat, org: Id, user: Id)
    requires Trace(states, actions) && i <= j < |states| && states[i].deployment.Some?
    requires !IsAdmin(states[i].seats, org, user) && IsAdmin(states[j].seats, org, user)
    ensures exists k :: i <= k < j && AdminCause(states, actions, i, k, org, user)
              && forall m :: k < m <= j ==> IsAdmin(states[m].seats, org, user)
    decreases j - i
  {
    hide Inv, Allowed, Step, IsAdmin, OwnerPromotes, AdmitsAdmin, OwnerInvited;
    if i < j {
      Preservation.RunKeeps(states, actions, j - 1);
      if IsAdmin(states[j - 1].seats, org, user) {
        AdminsTrace(states, actions, i, j - 1, org, user);
      } else {
        AdminCaused(states, actions, i, j - 1, org, user);
      }
    }
  }

  lemma AdminCaused(states: seq<State>, actions: seq<Action>, i: nat, k: nat, org: Id, user: Id)
    requires Trace(states, actions) && i <= k < |actions| && states[i].deployment.Some?
    requires !IsAdmin(states[k].seats, org, user) && IsAdmin(states[k + 1].seats, org, user)
    ensures AdminCause(states, actions, i, k, org, user)
  {
    hide Inv, Allowed, Step, IsAdmin, OwnerPromotes, InvitationLife.Grants, OwnerInvites;
    Preservation.RunKeeps(states, actions, k);
    DeploymentRuns(states, actions, i, k);
    AdmittedBy(states[k], actions[k], org, user);
    if !OwnerPromotes(states[k], actions[k], org, user) {
      var v :| AdmitsAdmin(states[k], actions[k], v, org, user);
      InvitationOrigin(states, actions, i, k, v, org);
    }
  }
}
