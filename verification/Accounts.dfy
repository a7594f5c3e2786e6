/**
 Account transactions: internal/storage/auth/account.go, registration.go and
 deployment_member.go.
 */
module Accounts {
  import opened Records
  import InvalidationLog
  import Organizations
  import Schema
  import Texts

  datatype NewAccount = NewAccount(user: Id, username: string, displayName: string, password: Hash)

  /** The service rules for a new account's names. */
  predicate AccountAllowed(a: NewAccount) {
    Texts.UsernameAllowed(a.username) && Texts.DisplayNameAllowed(a.displayName)
  }

  /** The four inserts every new account consists of. */
  function AddAccount(s: State, a: NewAccount, role: Role, webDisabled: bool, now: Time): State {
    s.(users := s.users[a.user := User(a.username, a.displayName, "", true, now)],
       identities := s.identities[a.user := a.username],
       credentials := s.credentials[a.user := a.password],
       access := s.access[a.user := Access(role, true, webDisabled, now)])
  }

  function DefaultPlans(plans: map<string, Plan>, now: Time): map<string, Plan> {
    plans[FREE := Plan("Free", true, Some(200000), "默认免费额度", 10, now)]
         [ADMIN_PLAN := Plan("Admin", true, None, "无限额度管理套餐", 90, now)]
  }

  predicate SetupRequired(s: State) {
    forall u <- s.access.Keys :: !s.access[u].active
  }

  function CreateOwner(s: State, account: NewAccount, org: Id, orgName: string, now: Time): Tx {
    if !AccountAllowed(account) then Abort(RequestInvalid)
    else if !SetupRequired(s) then Abort(AlreadySetup)
    else
      var placed := s.(deployment := Some(Deployment(true)), orgs := s.orgs[org := Organization(orgName, true)]);
      var owned := Organizations.Enter(AddAccount(placed, account, Owner, false, now), org, account.user, Owner, now);
      Commit(owned.(plans := DefaultPlans(owned.plans, now)))
  }

  function RegisterAccount(s: State, account: NewAccount, now: Time): Tx {
    if !AccountAllowed(account) then Abort(RequestInvalid)
    else if s.deployment.None? || !s.deployment.value.active then Abort(NotFound)
    else if Schema.UsernameTaken(s, account.username) then Abort(UsernameConflict)
    else Commit(AddAccount(s, account, Member, false, now))
  }

  function CreateDeploymentMember(s: State, actor: Id, account: NewAccount, role: Role, now: Time): Tx {
    if !AccountAllowed(account) then Abort(RequestInvalid)
    else if !Schema.Administers(s, actor, role) then Abort(StateConflict)
    else if Schema.UsernameTaken(s, account.username) then Abort(UsernameConflict)
    else Commit(AddAccount(s, account, role, false, now))
  }

  /** `UPDATE sessions SET revoked_at … WHERE user_id … AND revoked_at IS NULL`. */
  function RevokeSessionsOf(sessions: map<Id, Session>, user: Id): map<Id, Session> {
    map k <- sessions :: if sessions[k].user == user then sessions[k].(revoked := true) else sessions[k]
  }

  function PrincipalDraft(user: Id, now: Time): Draft {
    Draft(user, Account, PrincipalChanged, None, false, now)
  }

  /** Events of an admitted access change: the name first (if access stays), then the principal. */
  function AccessLog(log: seq<Event>, renamed: bool, user: Id, row: Access, next: Organizations.Change,
      now: Time): seq<Event> {
    var named :=
      if renamed && next.active then InvalidationLog.Append(log, Organizations.ProfileDraft(user, now)) else log;
    if row.role != next.role || row.active != next.active then InvalidationLog.Append(named, PrincipalDraft(user, now))
    else named
  }

  /** The state after an admitted change: access row, name, session fence, events. */
  function ChangeAccess(s: State, user: Id, next: Organizations.Change, now: Time): State
    requires user in s.users && user in s.access
  {
    s.(access := s.access[user := Access(next.role, next.active, s.access[user].webDisabled, now)],
       users := Organizations.RenamedUsers(s.users, user, next.name, now),
       sessions := if next.active then s.sessions else RevokeSessionsOf(s.sessions, user),
       log := AccessLog(s.log, next.name != s.users[user].displayName, user, s.access[user], next, now))
  }

  function AccessVersion(s: State, user: Id): Organizations.Expected
    requires user in s.users && user in s.access
  {
    Organizations.Expected(s.access[user].role, s.access[user].active,
      Organizations.Later(s.users[user].updatedAt, s.access[user].updatedAt))
  }

  function UpdateDeploymentMember(s: State, user: Id, actor: Id, expected: Organizations.Expected,
      next: Organizations.Change, now: Time): Tx {
    if user !in s.users || user !in s.access then Abort(NotFound)
    else if !Organizations.RenameAllowed(s.users[user].displayName, next.name) then Abort(RequestInvalid)
    else if expected != AccessVersion(s, user) then Abort(StateConflict)
    else if !Schema.Administers(s, actor, s.access[user].role) || !Schema.Administers(s, actor, next.role) then
      Abort(StateConflict)
    else if actor == user && !next.active then Abort(StateConflict)
    else Commit(ChangeAccess(s, user, next, now))
  }

  function UpdateAvatar(s: State, user: Id, avatar: string, now: Time): Tx {
    if user !in s.users || !s.users[user].active then Abort(NotFound)
    else
      Commit(s.(users := s.users[user := s.users[user].(avatar := avatar, updatedAt := now)],
                log := Organizations.ProfileLog(s.log, s.access, user, now)))
  }
}
