/** Setup happens once, platform ownership is fixed by it, and nobody is ever without a plan. */
module Setup {
  import opened Records
  import opened Schema
  import opened Control
  import opened Frames
  import Accounts
  import Coherence
  import InvalidationLog
  import InvitationLife
  import Organizations
  import Preservation

  predicate OwnsPlatform(access: map<Id, Access>, user: Id) {
    user in access && access[user].active && access[user].role == Owner
  }

  /** One step neither makes nor unmakes a platform owner. */
  ghost predicate SameOwner(before: map<Id, Access>, after: map<Id, Access>, user: Id) {
    OwnsPlatform(before, user) <==> OwnsPlatform(after, user)
  }

  lemma SameOwnerRefl(access: map<Id, Access>, user: Id)
    ensures SameOwner(access, access, user)
  {
  }

  lemma WrittenAccess(access: map<Id, Access>, who: Id, row: Access, user: Id)
    requires row.role != Owner && (who in access ==> access[who].role != Owner)
    ensures SameOwner(access, access[who := row], user)
  {
  }

  lemma AddedOwner(s: State, a: Accounts.NewAccount, role: Role, webDisabled: bool, now: Time, user: Id)
    requires role != Owner && a.user !in s.access
    ensures SameOwner(s.access, Accounts.AddAccount(s, a, role, webDisabled, now).access, user)
  {
  }

  lemma RegisterOwner(s: State, a: Action, user: Id)
    requires Allowed(s, a) && Inv(s)
    requires a.DoRegister? || a.DoCreateMember? || a.DoAccept?
    ensures SameOwner(s.access, Step(s, a).access, user)
  {
    hide Inv, SameOwner, UsernameTaken, Working, Organizations.Open, ActiveOrg, Accounts.AddAccount;
    Coherence.AccountOf(s, a.account.user);
    SameOwnerRefl(s.access, user);
    if a.DoRegister? {
      AddedOwner(s, a.account, Member, false, a.now, user);
    } else if a.DoAccept? {
      AddedOwner(s, a.account, Member, true, a.now, user);
    } else if Execute(s, a).Commit? {
      AddedOwner(s, a.account, a.role, false, a.now, user);
    }
  }

  lemma UpdateOwner(s: State, a: Action, user: Id)
    requires a.DoUpdateAccess?
    ensures SameOwner(s.access, Step(s, a).access, user)
  {
    hide SameOwner, Working, Accounts.AccessVersion, Organizations.RenamedUsers, Accounts.RevokeSessionsOf,
      Accounts.AccessLog;
    SameOwnerRefl(s.access, user);
    if Execute(s, a).Commit? {
      WrittenAccess(s.access, a.user, Access(a.next.role, a.next.active, s.access[a.user].webDisabled, a.now), user);
    }
  }

  lemma SameAccess(s: State, t: State)
    requires SessionsOnly(s, t) || DevicesOnly(s, t) || BillingOnly(s, t) || InvitationsOnly(s, t)
          || MembershipsOnly(s, t)
    ensures t.access == s.access
  {
    hide SessionsOnly, DevicesOnly, BillingOnly, InvitationsOnly, MembershipsOnly;
    if SessionsOnly(s, t) {
      SessionsRest(s, t);
    } else if DevicesOnly(s, t) {
      DevicesRest(s, t);
    } else if BillingOnly(s, t) {
      BillingRest(s, t);
    } else if InvitationsOnly(s, t) {
      InvitationsRest(s, t);
    } else {
      MembershipsRest(s, t);
    }
  }

  lemma AccessElsewhere(s: State, a: Action)
    requires !Founding(a) && !AccountAction(a) && !a.DoAccept?
    ensures Step(s, a).access == s.access
  {
    hide Step, Execute, SessionsOnly, DevicesOnly, BillingOnly, InvitationsOnly, MembershipsOnly;
    if SessionAction(a) {
      SessionFrame(s, a);
    } else if DeviceAction(a) {
      DeviceFrame(s, a);
    } else if BillingAction(a) {
      BillingFrame(s, a);
    } else if InvitationAction(a) {
      InvitationFrame(s, a);
    } else {
      MembershipFrame(s, a);
    }
    SameAccess(s, Step(s, a));
  }

  lemma AvatarAccess(s: State, a: Action)
    requires a.DoUpdateAvatar?
    ensures Step(s, a).access == s.access
  {
    hide Organizations.ProfileLog;
  }

  lemma StepOwner(s: State, a: Action, user: Id)
    requires Inv(s) && Allowed(s, a) && s.deployment.Some?
    ensures SameOwner(s.access, Step(s, a).access, user)
  {
    hide Inv, Step, Allowed;
    if Founding(a) {
      InvitationLife.DeploymentStays(s, a);
    } else if a.DoUpdateAccess? {
      UpdateOwner(s, a, user);
    } else if a.DoUpdateAvatar? {
      AvatarAccess(s, a);
    } else if AccountAction(a) || a.DoAccept? {
      RegisterOwner(s, a, user);
    } else {
      AccessElsewhere(s, a);
    }
  }

  /** Main result. After setup nobody becomes or stops being an active platform owner. */
  lemma {:induction false} PlatformOwnersFixed(states: seq<State>, actions: seq<Action>, i: nat, j: nat, user: Id)
    requires Trace(states, actions) && i <= j < |states| && states[i].deployment.Some?
    ensures states[j].deployment.Some?
    ensures OwnsPlatform(states[i].access, user) <==> OwnsPlatform(states[j].access, user)
    decreases j - i
  {
    hide Inv, Allowed, Step, OwnsPlatform;
    if i < j {
      PlatformOwnersFixed(states, actions, i, j - 1, user);
      Preservation.RunKeeps(states, actions, j - 1);
      InvitationLife.DeploymentStays(states[j - 1], actions[j - 1]);
      StepOwner(states[j - 1], actions[j - 1], user);
    }
  }

  /** Setup is required exactly as long as there is no deployment; so never again once done. */
  lemma SetupOnce(states: seq<State>, actions: seq<Action>, i: nat, j: nat)
    requires Trace(states, actions) && i <= j < |states|
    ensures Accounts.SetupRequired(states[j]) <==> states[j].deployment.None?
    ensures states[i].deployment.Some? ==> !Accounts.SetupRequired(states[j])
    ensures states[i].deployment.Some? ==> forall account, org, name, now ::
              Accounts.CreateOwner(states[j], account, org, name, now)
                == Abort(if Accounts.AccountAllowed(account) then AlreadySetup else RequestInvalid)
  {
    hide Inv, Allowed, Step, Accounts.SetupRequired, Accounts.AccountAllowed;
    Preservation.RunKeeps(states, actions, j);
    Preservation.BlankWhenRequired(states[j]);
    if states[i].deployment.Some? {
      PlatformOwnersFixed(states, actions, i, j, 0);
    }
  }

  /** Everybody with access has an effective entitlement: the assigned plan, or else the free one. */
  lemma AlwaysEntitled(s: State, user: Id)
    requires Inv(s) && user in s.access
    ensures Coherence.QuotaOf(s.plans, s.grants, user).Some?
    ensures Coherence.QuotaOf(s.plans, s.grants, user).value.key
         == if user in s.grants then s.grants[user].plan else FREE
  {
    Coherence.AccountOf(s, user);
    Preservation.SetUpByUser(s, user);
    hide AccountsFit, InvitationsFit, SeatsFit, SessionsFit, AgentsFit, NodesFit, NodesBacked, ReceiptsFit,
      InvalidationLog.Ordered, PlatformOwned;
  }
}
