/**
 Which stored names and plans a later migration will accept: every transaction keeps the
 ones that fit, and a username never changes.
 */
module Profiles {
  import opened Records
  import opened Schema
  import opened Organizations
  import opened Accounts
  import opened Entitlements
  import opened Control
  import opened Frames
  import InvalidationLog
  import Invitations
  import Preservation
  import Sessions
  import Texts

  // ---- names ------------------------------------------------------------------------

  lemma WrittenName(users: map<Id, User>, user: Id, row: User)
    requires NamesFit(users) && ProfileFits(row)
    ensures NamesFit(users[user := row])
  {
    hide ProfileFits;
  }

  lemma AccountFits(a: NewAccount, now: Time)
    requires AccountAllowed(a)
    ensures ProfileFits(User(a.username, a.displayName, "", true, now))
  {
    hide Texts.UsernameAllowed, Texts.IsBlank, Texts.Utf8Length;
  }

  lemma RenamedFits(users: map<Id, User>, user: Id, name: string, now: Time)
    requires NamesFit(users) && user in users && RenameAllowed(users[user].displayName, name)
    ensures NamesFit(RenamedUsers(users, user, name, now))
  {
    hide Texts.UsernameAllowed, Texts.IsBlank, Texts.Utf8Length;
    assert user in users.Keys;
  }

  lemma UntouchedNameFits(users: map<Id, User>, user: Id, row: User)
    requires NamesFit(users) && user in users && row.username == users[user].username
          && row.displayName == users[user].displayName
    ensures NamesFit(users[user := row])
  {
    hide Texts.UsernameAllowed, Texts.IsBlank;
    assert user in users.Keys;
  }

  lemma RegisterNames(s: State, a: NewAccount, now: Time)
    requires NamesFit(s.users)
    ensures NamesFit(RegisterAccount(s, a, now).After(s).users)
  {
    hide NamesFit, ProfileFits, AccountAllowed, UsernameTaken;
    if AccountAllowed(a) {
      AccountFits(a, now);
      WrittenName(s.users, a.user, User(a.username, a.displayName, "", true, now));
    }
  }

  lemma CreateMemberNames(s: State, actor: Id, a: NewAccount, role: Role, now: Time)
    requires NamesFit(s.users)
    ensures NamesFit(CreateDeploymentMember(s, actor, a, role, now).After(s).users)
  {
    hide NamesFit, ProfileFits, AccountAllowed, UsernameTaken, Administers;
    if AccountAllowed(a) {
      AccountFits(a, now);
      WrittenName(s.users, a.user, User(a.username, a.displayName, "", true, now));
    }
  }

  lemma AcceptNames(s: State, token: Id, a: NewAccount, now: Time)
    requires NamesFit(s.users)
    ensures NamesFit(Invitations.AcceptInvitation(s, token, a, now).After(s).users)
  {
    hide NamesFit, ProfileFits, AccountAllowed, UsernameTaken, Open, ActiveOrg;
    if AccountAllowed(a) {
      AccountFits(a, now);
      WrittenName(s.users, a.user, User(a.username, a.displayName, "", true, now));
    }
  }

  lemma UpdateAccessNames(s: State, user: Id, actor: Id, expected: Expected, next: Change, now: Time)
    requires NamesFit(s.users)
    ensures NamesFit(UpdateDeploymentMember(s, user, actor, expected, next, now).After(s).users)
  {
    hide NamesFit, RenameAllowed, RenamedUsers, AccessLog, RevokeSessionsOf, Administers, AccessVersion;
    if user in s.users && RenameAllowed(s.users[user].displayName, next.name) {
      RenamedFits(s.users, user, next.name, now);
    }
  }

  lemma UpdateMemberNames(s: State, org: Id, user: Id, actor: Id, expected: Expected, next: Change, now: Time)
    requires NamesFit(s.users)
    ensures NamesFit(UpdateMember(s, org, user, actor, expected, next, now).After(s).users)
  {
    hide NamesFit, RenameAllowed, RenamedUsers, SeatLog, RevokeAgents, RevokeNodes, Manages, SeatVersion;
    if user in s.users && RenameAllowed(s.users[user].displayName, next.name) {
      RenamedFits(s.users, user, next.name, now);
    }
  }

  lemma AvatarNames(s: State, user: Id, avatar: string, now: Time)
    requires NamesFit(s.users)
    ensures NamesFit(UpdateAvatar(s, user, avatar, now).After(s).users)
  {
    hide NamesFit, ProfileLog;
    if user in s.users {
      UntouchedNameFits(s.users, user, s.users[user].(avatar := avatar, updatedAt := now));
    }
  }

  lemma SessionNames(s: State, id: Id, user: Id, token: Id, expires: Time, now: Time)
    requires NamesFit(s.users)
    ensures NamesFit(Sessions.CreateSession(s, id, user, token, expires, now).After(s).users)
  {
    hide NamesFit, Sessions.DeadSessions;
    if user in s.users {
      UntouchedNameFits(s.users, user, s.users[user].(updatedAt := now));
    }
  }

  lemma OtherSessionNames(s: State, a: Action)
    requires a.DoRevokeSession? || a.DoTryPassword? || a.DoSettle?
    ensures Step(s, a).users == s.users
  {
    hide InvalidationLog.Append, InvalidationLog.ForNodes, Sessions.RevokeNodesOf;
  }

  lemma SameNames(s: State, t: State)
    requires InvitationsOnly(s, t) || DevicesOnly(s, t) || BillingOnly(s, t) || OrganizationsOnly(s, t)
          || JoinOnly(s, t)
    ensures t.users == s.users
  {
    hide InvitationsOnly, DevicesOnly, BillingOnly, OrganizationsOnly, JoinOnly;
    if InvitationsOnly(s, t) {
      InvitationsRest(s, t);
    } else if DevicesOnly(s, t) {
      DevicesRest(s, t);
    } else if BillingOnly(s, t) {
      BillingRest(s, t);
    } else if OrganizationsOnly(s, t) {
      OrganizationsRest(s, t);
    } else {
      JoinRest(s, t);
    }
  }

  lemma ElsewhereNames(s: State, a: Action)
    requires InvitationAction(a) || DeviceAction(a) || BillingAction(a) || a.DoMutate?
    ensures Step(s, a).users == s.users
  {
    hide Step, Execute, InvitationsOnly, DevicesOnly, BillingOnly, OrganizationsOnly, JoinOnly;
    if InvitationAction(a) {
      InvitationFrame(s, a);
    } else if DeviceAction(a) {
      DeviceFrame(s, a);
    } else if BillingAction(a) {
      BillingFrame(s, a);
    } else if a.command.Join? {
      JoinedFrame(s, a);
    } else {
      CommandFrame(s, a);
    }
    SameNames(s, Step(s, a));
  }

  lemma StepNames(s: State, a: Action)
    requires NamesFit(s.users) && !Founding(a)
    ensures NamesFit(Step(s, a).users)
  {
    hide NamesFit, RegisterAccount, CreateDeploymentMember, Invitations.AcceptInvitation, UpdateDeploymentMember,
      UpdateMember, UpdateAvatar, Sessions.CreateSession,
      Sessions.RevokeSession, Sessions.TryCommitPassword, Sessions.SettlePassword;
    if a.DoRegister? {
      RegisterNames(s, a.account, a.now);
    } else if a.DoCreateMember? {
      CreateMemberNames(s, a.actor, a.account, a.role, a.now);
    } else if a.DoAccept? {
      AcceptNames(s, a.token, a.account, a.now);
    } else if a.DoUpdateAccess? {
      UpdateAccessNames(s, a.user, a.actor, a.expected, a.next, a.now);
    } else if a.DoUpdateMember? {
      UpdateMemberNames(s, a.org, a.user, a.actor, a.expected, a.next, a.now);
    } else if a.DoUpdateAvatar? {
      AvatarNames(s, a.user, a.avatar, a.now);
    } else if a.DoCreateSession? {
      SessionNames(s, a.id, a.user, a.token, a.expires, a.now);
    } else {
      RestNames(s, a);
    }
  }

  lemma RestNames(s: State, a: Action)
    requires a.DoRevokeSession? || a.DoTryPassword? || a.DoSettle? || InvitationAction(a) || DeviceAction(a)
          || BillingAction(a) || a.DoMutate?
    ensures Step(s, a).users == s.users
  {
    if a.DoRevokeSession? || a.DoTryPassword? || a.DoSettle? {
      OtherSessionNames(s, a);
    } else {
      ElsewhereNames(s, a);
    }
    hide Step, Execute;
  }

  // ---- plans --------------------------------------------------------------------------

  lemma FreeAllowed(now: Time)
    ensures PlanAllowed(FREE, Plan("Free", true, Some(200000), "默认免费额度", 10, now))
  {
    hide PlanAllowed;
    ShortPlan(FREE, Plan("Free", true, Some(200000), "默认免费额度", 10, now));
  }

  lemma AdminAllowed(now: Time)
    ensures PlanAllowed(ADMIN_PLAN, Plan("Admin", true, None, "无限额度管理套餐", 90, now))
  {
    hide PlanAllowed;
    ShortPlan(ADMIN_PLAN, Plan("Admin", true, None, "无限额度管理套餐", 90, now));
  }

  /** The default plans pass, whatever the clock says. */
  lemma DefaultsAllowed(plans: map<string, Plan>, now: Time)
    requires PlansAllowed(plans)
    ensures PlansAllowed(DefaultPlans(plans, now))
  {
    hide PlanAllowed, PlansAllowed;
    FreeAllowed(now);
    AdminAllowed(now);
    var free := Plan("Free", true, Some(200000), "默认免费额度", 10, now);
    WrittenPlan(plans, FREE, free);
    WrittenPlan(plans[FREE := free], ADMIN_PLAN, Plan("Admin", true, None, "无限额度管理套餐", 90, now));
  }

  /** Short texts without surrounding white space need no counting. */
  lemma ShortPlan(key: string, plan: Plan)
    requires Texts.PlanKeyAllowed(key) && key != "" && plan.active
    requires plan.name != "" && !Texts.IsSpace(plan.name[0]) && |plan.name| <= 32 && |plan.notes| <= 1024
    ensures PlanAllowed(key, plan)
  {
    assert !Texts.IsSpace(key[0]) && !Texts.IsSpace(key[|key| - 1]);
    Texts.Utf8AtMost(Texts.Trim(plan.name));
    Texts.Utf8AtMost(Texts.Trim(plan.notes));
    hide Texts.Utf8Length;
  }

  lemma WrittenPlan(plans: map<string, Plan>, key: string, plan: Plan)
    requires PlansAllowed(plans) && PlanAllowed(key, plan)
    ensures PlansAllowed(plans[key := plan])
  {
    hide PlanAllowed;
  }

  lemma {:induction false} PutAllowed(plans: map<string, Plan>, rows: seq<PlanRow>)
    requires PlansAllowed(plans) && forall p <- rows :: PlanAllowed(p.key, p.value)
    ensures PlansAllowed(Put(plans, rows))
  {
    hide PlanAllowed, PlansAllowed;
    if rows != [] {
      PutAllowed(plans, rows[..|rows| - 1]);
      WrittenPlan(Put(plans, rows[..|rows| - 1]), rows[|rows| - 1].key, rows[|rows| - 1].value);
    }
  }

  lemma UpsertAllowed(s: State, key: string, plan: Plan, rows: seq<Id>, now: Time)
    requires PlansAllowed(s.plans)
    ensures PlansAllowed(UpsertPlan(s, key, plan, rows, now).After(s).plans)
  {
    hide PlansAllowed, InvalidationLog.ForUsers;
    if PlanAllowed(key, plan) {
      assert PlanAllowed(key, plan.(updatedAt := now));
      hide PlanAllowed;
      WrittenPlan(s.plans, key, plan.(updatedAt := now));
    }
  }

  lemma SubscriptionsAllowed(s: State, plans: seq<PlanRow>, grants: seq<GrantRow>, rows: seq<Id>, now: Time)
    requires PlansAllowed(s.plans)
    ensures PlansAllowed(ImportSubscriptions(s, plans, grants, rows, now).After(s).plans)
  {
    hide PlansAllowed, PlanAllowed, InvalidationLog.ForUsers, Put, GrantFault;
    if forall p <- plans :: PlanAllowed(p.key, p.value) {
      PutAllowed(s.plans, plans);
    }
  }

  lemma GrantPlans(s: State, user: Id, key: string, now: Time)
    ensures SetGrant(s, user, key, now).After(s).plans == s.plans
  {
    hide PlanKey, InvalidationLog.Append;
  }

  lemma SamePlans(s: State, t: State)
    requires AccountsOnly(s, t) || InvitationsOnly(s, t) || SessionsOnly(s, t) || DevicesOnly(s, t) || AcceptOnly(s, t)
          || MembershipsOnly(s, t)
    ensures t.plans == s.plans
  {
    hide AccountsOnly, InvitationsOnly, SessionsOnly, DevicesOnly, AcceptOnly, MembershipsOnly;
    if AccountsOnly(s, t) {
      AccountsRest(s, t);
    } else if InvitationsOnly(s, t) {
      InvitationsRest(s, t);
    } else if SessionsOnly(s, t) {
      SessionsRest(s, t);
    } else if DevicesOnly(s, t) {
      DevicesRest(s, t);
    } else if AcceptOnly(s, t) {
      AcceptRest(s, t);
    } else {
      MembershipsRest(s, t);
    }
  }

  lemma ElsewherePlans(s: State, a: Action)
    requires !Founding(a) && !BillingAction(a)
    ensures Step(s, a).plans == s.plans
  {
    hide Step, Execute, AccountsOnly, InvitationsOnly, SessionsOnly, DevicesOnly, AcceptOnly, MembershipsOnly;
    if AccountAction(a) {
      AccountFrame(s, a);
    } else if InvitationAction(a) {
      InvitationFrame(s, a);
    } else if SessionAction(a) {
      SessionFrame(s, a);
    } else if DeviceAction(a) {
      DeviceFrame(s, a);
    } else if a.DoAccept? {
      AcceptFrame(s, a);
    } else {
      MembershipFrame(s, a);
    }
    SamePlans(s, Step(s, a));
  }

  lemma StepPlans(s: State, a: Action)
    requires PlansAllowed(s.plans) && !Founding(a)
    ensures PlansAllowed(Step(s, a).plans)
  {
    hide PlansAllowed, UpsertPlan, SetGrant, ImportSubscriptions;
    if a.DoPlan? {
      UpsertAllowed(s, a.key', a.plan, a.rows, a.now);
    } else if a.DoGrant? {
      GrantPlans(s, a.user, a.plan', a.now);
    } else if a.DoSubscriptions? {
      SubscriptionsAllowed(s, a.plans, a.grants, a.rows, a.now);
    } else {
      ElsewherePlans(s, a);
    }
  }

  // ---- over runs ------------------------------------------------------------------------

  lemma OwnerTexts(s: State, a: NewAccount, org: Id, name: string, now: Time)
    requires TextsFit(s)
    ensures TextsFit(CreateOwner(s, a, org, name, now).After(s))
  {
    hide NamesFit, PlansAllowed, ProfileFits, AccountAllowed, SetupRequired, DefaultPlans;
    if AccountAllowed(a) {
      AccountFits(a, now);
      WrittenName(s.users, a.user, User(a.username, a.displayName, "", true, now));
      DefaultsAllowed(s.plans, now);
    }
  }

  lemma ImportTexts(s: State, source: State)
    requires TextsFit(s)
    ensures TextsFit(ImportControl(s, source).After(s))
  {
    hide NamesFit, PlansAllowed;
  }

  /** No transaction stores a name or a plan that a scan would refuse. */
  lemma StepTexts(s: State, a: Action)
    requires TextsFit(s)
    ensures TextsFit(Step(s, a))
  {
    hide NamesFit, PlansAllowed, CreateOwner, ImportControl;
    if a.DoCreateOwner? {
      OwnerTexts(s, a.account, a.org, a.name, a.now);
    } else if a.DoImport? {
      ImportTexts(s, a.source);
    } else {
      StepNames(s, a);
      StepPlans(s, a);
      hide Step, Execute;
    }
  }

  lemma {:induction false} RunTexts(states: seq<State>, actions: seq<Action>, i: nat, j: nat)
    requires Trace(states, actions) && i <= j < |states| && TextsFit(states[i])
    ensures TextsFit(states[j])
    decreases j - i
  {
    hide Inv, Allowed, Step, TextsFit;
    if i < j {
      RunTexts(states, actions, i, j - 1);
      StepTexts(states[j - 1], actions[j - 1]);
    }
  }

  // ---- usernames -----------------------------------------------------------------------

  /** The stored subject of a user, which the username repeats, is written once. */
  ghost predicate SubjectKept(before: map<Id, string>, after: map<Id, string>, user: Id) {
    user in before ==> user in after && after[user] == before[user]
  }

  lemma SubjectRefl(subjects: map<Id, string>, user: Id)
    ensures SubjectKept(subjects, subjects, user)
  {
  }

  lemma NewSubject(subjects: map<Id, string>, who: Id, name: string, user: Id)
    requires who !in subjects
    ensures SubjectKept(subjects, subjects[who := name], user)
  {
  }

  lemma AccountSubjects(s: State, a: Action, user: Id)
    requires (a.DoRegister? || a.DoCreateMember? || a.DoAccept?) && a.account.user !in s.identities
    ensures SubjectKept(s.identities, Step(s, a).identities, user)
  {
    hide SubjectKept, AccountAllowed, UsernameTaken, Administers, Open, ActiveOrg;
    SubjectRefl(s.identities, user);
    NewSubject(s.identities, a.account.user, a.account.username, user);
  }

  lemma ProfileSubjects(s: State, a: Action)
    requires a.DoUpdateAccess? || a.DoUpdateAvatar?
    ensures Step(s, a).identities == s.identities
  {
    hide Administers, RenamedUsers, RenameAllowed, AccessLog, RevokeSessionsOf, ProfileLog, AccessVersion;
  }

  lemma SameSubjects(s: State, t: State)
    requires InvitationsOnly(s, t) || SessionsOnly(s, t) || DevicesOnly(s, t) || BillingOnly(s, t)
          || MembershipsOnly(s, t)
    ensures t.identities == s.identities
  {
    hide InvitationsOnly, SessionsOnly, DevicesOnly, BillingOnly, MembershipsOnly;
    if InvitationsOnly(s, t) {
      InvitationsRest(s, t);
    } else if SessionsOnly(s, t) {
      SessionsRest(s, t);
    } else if DevicesOnly(s, t) {
      DevicesRest(s, t);
    } else if BillingOnly(s, t) {
      BillingRest(s, t);
    } else {
      MembershipsRest(s, t);
    }
  }

  lemma ElsewhereSubjects(s: State, a: Action)
    requires InvitationAction(a) || SessionAction(a) || DeviceAction(a) || BillingAction(a) || a.DoMutate?
          || a.DoUpdateMember?
    ensures Step(s, a).identities == s.identities
  {
    hide Step, Execute, InvitationsOnly, SessionsOnly, DevicesOnly, BillingOnly, MembershipsOnly;
    if InvitationAction(a) {
      InvitationFrame(s, a);
    } else if SessionAction(a) {
      SessionFrame(s, a);
    } else if DeviceAction(a) {
      DeviceFrame(s, a);
    } else if BillingAction(a) {
      BillingFrame(s, a);
    } else {
      MembershipFrame(s, a);
    }
    SameSubjects(s, Step(s, a));
  }

  lemma FoundedSubjects(s: State, t: State, a: Action, user: Id)
    requires Founded(s, t, a)
    ensures SubjectKept(s.identities, t.identities, user)
  {
  }

  lemma StepSubjects(s: State, a: Action, user: Id)
    requires Inv(s) && Allowed(s, a)
    ensures SubjectKept(s.identities, Step(s, a).identities, user)
  {
    hide Inv, Step, Execute, SubjectKept, Founded;
    SubjectRefl(s.identities, user);
    if Founding(a) {
      FoundedFrame(s, a);
      if Step(s, a) != s {
        FoundedSubjects(s, Step(s, a), a, user);
      }
    } else if a.DoRegister? || a.DoCreateMember? || a.DoAccept? {
      NoSubject(s, a.account.user);
      AccountSubjects(s, a, user);
    } else if a.DoUpdateAccess? || a.DoUpdateAvatar? {
      ProfileSubjects(s, a);
    } else {
      ElsewhereSubjects(s, a);
    }
  }

  lemma NoSubject(s: State, user: Id)
    requires Inv(s)
    ensures user in s.identities <==> user in s.users
    ensures user in s.users ==> s.identities[user] == s.users[user].username
  {
    Preservation.AccountAccess(s);
    hide InvitationsFit, SeatsFit, SessionsFit, AgentsFit, NodesFit, NodesBacked, PlansFit, ReceiptsFit, SetupFits,
      InvalidationLog.Ordered;
    assert user in s.identities.Keys <==> user in s.users.Keys;
  }

  /** Main result. A username never changes, in any run. */
  lemma {:induction false} UsernamesNeverChange(states: seq<State>, actions: seq<Action>, i: nat, j: nat, user: Id)
    requires Trace(states, actions) && i <= j < |states| && user in states[i].users
    ensures user in states[j].users && states[j].users[user].username == states[i].users[user].username
    decreases j - i
  {
    hide Inv, Allowed, Step;
    if i < j {
      UsernamesNeverChange(states, actions, i, j - 1, user);
      Preservation.RunKeeps(states, actions, j - 1);
      Preservation.RunKeeps(states, actions, j);
      NoSubject(states[j - 1], user);
      NoSubject(states[j], user);
      StepSubjects(states[j - 1], actions[j - 1], user);
    }
  }
}
