/**
 One step of the authority is one committed or rolled-back transaction; a run is
 any sequence of them. Timestamps are arbitrary inputs and need not grow.
 */
module Control {
  import opened Records
  import Accounts
  import Devices
  import Entitlements
  import Invitations
  import Organizations
  import Schema
  import Sessions
  import Texts

  datatype Action =
    | DoCreateOwner(account: Accounts.NewAccount, org: Id, name: string, now: Time)
    | DoImport(source: State)
    | DoRegister(account: Accounts.NewAccount, now: Time)
    | DoCreateMember(actor: Id, account: Accounts.NewAccount, role: Role, now: Time)
    | DoUpdateAccess(user: Id, actor: Id, expected: Organizations.Expected, next: Organizations.Change, now: Time)
    | DoUpdateAvatar(user: Id, avatar: string, now: Time)
    | DoMutate(actor: Id, home: Option<Id>, command: Organizations.Command, now: Time)
    | DoUpdateMember(org: Id, user: Id, actor: Id, expected: Organizations.Expected,
        next: Organizations.Change, now: Time)
    | DoInvite(id: Id, org: Id, token: Id, role: Role, actor: Id, expires: Time)
    | DoRevokeInvitation(org: Id, id: Id, actor: Id, now: Time)
    | DoDeleteInvitation(org: Id, id: Id, actor: Id, now: Time)
    | DoAccept(token: Id, account: Accounts.NewAccount, now: Time)
    | DoCreateSession(id: Id, user: Id, token: Id, expires: Time, now: Time)
    | DoRevokeSession(token: Id, now: Time)
    | DoTryPassword(key: Request, current: Hash, hash: Hash, rows: seq<Id>, now: Time)
    | DoSettle(key: Request)
    | DoPublish(id: Id, home: Option<Id>, owner: Id, origin: Id, name: string, avatar: string)
    | DoRegisterNode(owner: Id, home: Option<Id>, session: Id, registration: Devices.Registration, now: Time)
    | DoRevokeNode(owner: Id, home: Option<Id>, session: Id, node: Id, now: Time)
    | DoPlan(key': string, plan: Plan, rows: seq<Id>, now: Time)
    | DoGrant(user: Id, plan': string, now: Time)
    | DoSubscriptions(plans: seq<Entitlements.PlanRow>, grants: seq<Entitlements.GrantRow>, rows: seq<Id>, now: Time)

  /** What a migrated authority keeps: everything but sessions, devices and receipts. */
  function Migrated(source: State): State {
    source.(sessions := map[], nodes := map[], receipts := map[])
  }

  /** What a scan asks of a user's names. */
  predicate ProfileFits(user: User) {
    Texts.UsernameAllowed(user.username) && !Texts.IsBlank(user.displayName)
  }

  predicate NamesFit(users: map<Id, User>) {
    forall u <- users.Keys :: ProfileFits(users[u])
  }

  predicate PlansAllowed(plans: map<string, Plan>) {
    forall key <- plans.Keys :: Entitlements.PlanAllowed(key, plans[key])
  }

  /** All names and plans pass the validation of a scan. */
  predicate TextsFit(s: State) {
    NamesFit(s.users) && PlansAllowed(s.plans)
  }

  ghost predicate Blank(s: State) {
    s.deployment.None? && s.users.Keys == {} && s.plans.Keys == {} && s.log == []
  }

  /** The scan validates the source, the import wants a blank target. */
  ghost function ImportControl(s: State, source: State): Tx {
    if !TextsFit(source) then Abort(RequestInvalid)
    else if Blank(s) then Commit(Migrated(source))
    else Abort(AlreadySetup)
  }

  /** Generated ids are new, and listed rows are the rows the query selects. */
  ghost predicate Allowed(s: State, a: Action) {
    match a
    case DoCreateOwner(account, org, _, _) => account.user !in s.users && org !in s.orgs
    case DoImport(source) => Schema.Inv(source) && source.deployment.Some?
        && s.issuedSessions <= source.issuedSessions && s.issuedInvitations <= source.issuedInvitations
    case DoRegister(account, _) => account.user !in s.users
    case DoCreateMember(_, account, _, _) => account.user !in s.users
    case DoMutate(_, home, command, _) => Organizations.Admissible(s, home, command)
    case DoInvite(id, _, _, _, _, _) => id !in s.issuedInvitations
    case DoAccept(_, account, _) => account.user !in s.users
    case DoCreateSession(id, _, _, _, _) => id !in s.issuedSessions
    case DoTryPassword(key, _, _, rows, _) => Lists(rows, Schema.LiveNodesOf(s.nodes, key.user))
    case DoPublish(id, _, _, _, _, _) => id !in s.agents
    case DoPlan(key, _, rows, _) => Lists(rows, Schema.EntitledUsers(s, key))
    case DoSubscriptions(_, _, rows, _) => Lists(rows, Schema.ActiveUsers(s))
    case _ => true
  }

  ghost function Execute(s: State, a: Action): Tx {
    match a
    case DoCreateOwner(account, org, name, now) => Accounts.CreateOwner(s, account, org, name, now)
    case DoImport(source) => ImportControl(s, source)
    case DoRegister(account, now) => Accounts.RegisterAccount(s, account, now)
    case DoCreateMember(actor, account, role, now) => Accounts.CreateDeploymentMember(s, actor, account, role, now)
    case DoUpdateAccess(user, actor, expected, next, now) =>
      Accounts.UpdateDeploymentMember(s, user, actor, expected, next, now)
    case DoUpdateAvatar(user, avatar, now) => Accounts.UpdateAvatar(s, user, avatar, now)
    case DoMutate(actor, home, command, now) => Organizations.Mutate(s, actor, home, command, now)
    case DoUpdateMember(org, user, actor, expected, next, now) =>
      Organizations.UpdateMember(s, org, user, actor, expected, next, now)
    case DoInvite(id, org, token, role, actor, expires) =>
      Invitations.CreateInvitation(s, id, org, token, role, actor, expires)
    case DoRevokeInvitation(org, id, actor, now) => Invitations.RevokeInvitation(s, org, id, actor, now)
    case DoDeleteInvitation(org, id, actor, now) => Invitations.DeleteInvitation(s, org, id, actor, now)
    case DoAccept(token, account, now) => Invitations.AcceptInvitation(s, token, account, now)
    case DoCreateSession(id, user, token, expires, now) => Sessions.CreateSession(s, id, user, token, expires, now)
    case DoRevokeSession(token, now) => Sessions.RevokeSession(s, token, now)
    case DoTryPassword(key, current, hash, rows, now) => Sessions.TryCommitPassword(s, key, current, hash, rows, now)
    case DoSettle(key) => Sessions.SettlePassword(s, key)
    case DoPublish(id, home, owner, source, name, avatar) =>
      Devices.UpsertAgent(s, id, home, owner, source, name, avatar)
    case DoRegisterNode(owner, home, session, registration, now) =>
      Devices.RegisterNode(s, owner, home, session, registration, now)
    case DoRevokeNode(owner, home, session, node, now) => Devices.RevokeNode(s, owner, home, session, node, now)
    case DoPlan(key, plan, rows, now) => Entitlements.UpsertPlan(s, key, plan, rows, now)
    case DoGrant(user, plan, now) => Entitlements.SetGrant(s, user, plan, now)
    case DoSubscriptions(plans, grants, rows, now) => Entitlements.ImportSubscriptions(s, plans, grants, rows, now)
  }

  ghost function Step(s: State, a: Action): State {
    Execute(s, a).After(s)
  }

  /** `states[i]` is the state before `actions[i]`. */
  ghost predicate Trace(states: seq<State>, actions: seq<Action>) {
    && |states| == |actions| + 1
    && Schema.Inv(states[0])
    && forall i :: 0 <= i < |actions| ==> Allowed(states[i], actions[i]) && states[i + 1] == Step(states[i], actions[i])
  }
}
