/**
 What a committed account transaction leaves behind, row by row: new accounts, access
 updates, avatars; and that a suspension lasts until somebody lifts it.
 */
module AccountEffects {
  import opened Records
  import opened InvalidationLog
  import opened Schema
  import opened Accounts
  import opened Organizations
  import opened Control
  import Coherence
  import Frames
  import InvitationLife
  import Invitations
  import Machines
  import Preservation
  import Setup
  import Suspension
  import Texts

  // ---- new accounts ---------------------------------------------------------------------

  /** The account's four rows, and no other row of the four tables. */
  ghost predicate Added(s: State, t: State, a: NewAccount, role: Role, webDisabled: bool, now: Time) {
    && OnlyAt(s.users, t.users, a.user) && t.users[a.user] == User(a.username, a.displayName, "", true, now)
    && OnlyAt(s.identities, t.identities, a.user) && t.identities[a.user] == a.username
    && OnlyAt(s.credentials, t.credentials, a.user) && t.credentials[a.user] == a.password
    && OnlyAt(s.access, t.access, a.user) && t.access[a.user] == Access(role, true, webDisabled, now)
  }

  ghost predicate AccountOnly(s: State, t: State) {
    t == s.(users := t.users, identities := t.identities, credentials := t.credentials, access := t.access)
  }

  lemma AddedIs(s: State, a: NewAccount, role: Role, webDisabled: bool, now: Time)
    ensures Added(s, AddAccount(s, a, role, webDisabled, now), a, role, webDisabled, now)
    ensures AccountOnly(s, AddAccount(s, a, role, webDisabled, now))
  {
  }

  /** Registration gives exactly a plain member who may use the web, and needs only a free, allowed name. */
  lemma Registers(s: State, a: NewAccount, now: Time)
    ensures var tx := RegisterAccount(s, a, now);
            && (tx.Commit? <==>
                  && AccountAllowed(a) && s.deployment.Some? && s.deployment.value.active
                  && forall u <- s.users.Keys :: s.users[u].username != a.username)
            && (tx == Abort(RequestInvalid) <==> !AccountAllowed(a))
            && (tx == Abort(NotFound) <==>
                  AccountAllowed(a) && !(s.deployment.Some? && s.deployment.value.active))
            && (tx.Commit? ==> Added(s, tx.state, a, Member, false, now) && AccountOnly(s, tx.state))
  {
    AddedIs(s, a, Member, false, now);
    hide Added, AccountOnly, AddAccount, AccountAllowed;
  }

  /** Creation gives exactly the role asked for, which the actor must outrank. */
  lemma CreatesMember(s: State, actor: Id, a: NewAccount, role: Role, now: Time)
    ensures var tx := CreateDeploymentMember(s, actor, a, role, now);
            && (tx.Commit? <==>
                  && AccountAllowed(a) && Working(s, actor) && Rank(role) < Rank(s.access[actor].role)
                  && forall u <- s.users.Keys :: s.users[u].username != a.username)
            && (tx == Abort(RequestInvalid) <==> !AccountAllowed(a))
            && (tx == Abort(StateConflict) <==>
                  AccountAllowed(a) && !(Working(s, actor) && Rank(role) < Rank(s.access[actor].role)))
            && (tx.Commit? ==> Added(s, tx.state, a, role, false, now) && AccountOnly(s, tx.state))
  {
    AddedIs(s, a, role, false, now);
    hide Added, AccountOnly, AddAccount, AccountAllowed, Working;
  }

  /** A new account through an invitation: a plain platform member without the web, in the invited
      seat; the invitation is used, and there is no other change. */
  lemma AcceptsInvitation(s: State, token: Id, i: Id, a: NewAccount, now: Time)
    requires Inv(s) && i in s.invitations && s.invitations[i].token == token
    ensures Invitations.AcceptInvitation(s, token, a, now).Commit? <==>
              && AccountAllowed(a) && s.deployment.Some? && s.deployment.value.active && Usable(s, i, now)
              && forall u <- s.users.Keys :: s.users[u].username != a.username
    ensures Invitations.AcceptInvitation(s, token, a, now).Commit? ==>
              var t := Invitations.AcceptInvitation(s, token, a, now).state;
              Joined(s, t, i, a.user, now) && Added(s, t, a, Member, true, now)
  {
    hide Inv, Added, Joined, AddAccount, AccountAllowed, Enter, Accept;
    InvitationIs(s, token, i);
    AddedIs(s, a, Member, true, now);
    AddedThenSeated(s, AddAccount(s, a, Member, true, now), i, a, now);
  }

  lemma UnknownInvitation(s: State, token: Id, a: NewAccount, now: Time)
    requires forall i :: i in s.invitations ==> s.invitations[i].token != token
    ensures Invitations.AcceptInvitation(s, token, a, now).Abort?
  {
  }

  /** Neither used nor revoked nor expired, and for an active organization. */
  predicate Usable(s: State, i: Id, now: Time)
    requires i in s.invitations
  {
    var inv := s.invitations[i];
    Unspent(inv, now) && inv.org in s.orgs && s.orgs[inv.org].active
  }

  /** The invited seat, the used invitation, and otherwise at most account rows. */
  ghost predicate Joined(s: State, t: State, i: Id, user: Id, now: Time)
    requires i in s.invitations
  {
    var inv := s.invitations[i];
    && t == s.(users := t.users, identities := t.identities, credentials := t.credentials, access := t.access,
               seats := t.seats, invitations := t.invitations)
    && OnlyAt(s.seats, t.seats, Seat(inv.org, user))
    && t.seats[Seat(inv.org, user)] == Membership(inv.role, true, now)
    && OnlyAt(s.invitations, t.invitations, i)
    && t.invitations[i] == inv.(acceptedBy := Some(user), acceptedAt := Some(now))
  }

  lemma AddedThenSeated(s: State, joined: State, i: Id, a: NewAccount, now: Time)
    requires i in s.invitations && joined == AddAccount(s, a, Member, true, now)
    requires Added(s, joined, a, Member, true, now)
    ensures var t := Accept(Enter(joined, s.invitations[i].org, a.user, s.invitations[i].role, now), i, a.user, now);
            Joined(s, t, i, a.user, now) && Added(s, t, a, Member, true, now)
  {
    hide OnlyAt;
    SeatPut(s.seats, Seat(s.invitations[i].org, a.user), Membership(s.invitations[i].role, true, now));
    SeatPut(s.invitations, i, s.invitations[i].(acceptedBy := Some(a.user), acceptedAt := Some(now)));
  }

  lemma SeatPut<K(!new), V(!new)>(table: map<K, V>, key: K, row: V)
    ensures OnlyAt(table, table[key := row], key)
  {
  }

  lemma InvitationIs(s: State, token: Id, i: Id)
    requires Inv(s) && i in s.invitations && s.invitations[i].token == token
    ensures InvitationByToken(s.invitations, token) == Some(i)
  {
    hide Inv;
    var j := InvitationByToken(s.invitations, token);
    Preservation.InvitationOf(s, i);
  }

  // ---- invitations --------------------------------------------------------------------------

  /** Who works in the organization and outranks the role may invite to it, with a new token. */
  lemma Invites(s: State, i: Id, org: Id, token: Id, role: Role, actor: Id, expires: Time)
    ensures Invitations.CreateInvitation(s, i, org, token, role, actor, expires).Commit? <==>
              && Working(s, actor) && InOrg(s, org, actor) && Rank(role) < Rank(s.seats[Seat(org, actor)].role)
              && forall j <- s.invitations.Keys :: s.invitations[j].token != token
    ensures Invitations.CreateInvitation(s, i, org, token, role, actor, expires).Commit? ==>
              var t := Invitations.CreateInvitation(s, i, org, token, role, actor, expires).state;
              && t == s.(invitations := t.invitations, issuedInvitations := s.issuedInvitations + {i})
              && OnlyAt(s.invitations, t.invitations, i)
              && t.invitations[i] == Invitation(org, token, role, actor, expires, None, None, None)
  {
    hide Working;
  }

  /** An invitation is revoked while it is open and deleted once it is not, both by somebody who works
      in its organization and outranks its role; nothing else changes. */
  lemma Withdraws(s: State, org: Id, i: Id, actor: Id, now: Time)
    ensures var may := i in s.invitations && s.invitations[i].org == org && Working(s, actor) && InOrg(s, org, actor)
                       && Rank(s.invitations[i].role) < Rank(s.seats[Seat(org, actor)].role);
            && (Invitations.RevokeInvitation(s, org, i, actor, now).Commit? <==> may && Unspent(s.invitations[i], now))
            && (Invitations.DeleteInvitation(s, org, i, actor, now).Commit? <==> may && !Unspent(s.invitations[i], now))
    ensures Invitations.RevokeInvitation(s, org, i, actor, now).Commit? ==>
              var t := Invitations.RevokeInvitation(s, org, i, actor, now).state;
              && t == s.(invitations := t.invitations) && OnlyAt(s.invitations, t.invitations, i)
              && t.invitations[i] == s.invitations[i].(revokedAt := Some(now))
    ensures Invitations.DeleteInvitation(s, org, i, actor, now).Commit? ==>
              Invitations.DeleteInvitation(s, org, i, actor, now).state == s.(invitations := s.invitations - {i})
  {
    hide Working;
  }

  predicate Unspent(inv: Invitation, now: Time) {
    inv.acceptedAt.None? && inv.revokedAt.None? && now < inv.expires
  }

  // ---- setup ----------------------------------------------------------------------------------

  /** The first account owns the platform and an active organization of the given name, works there, and
      has the free plan, beside which there is an unlimited one; only these tables are written. */
  ghost predicate SetUp(s: State, t: State, a: NewAccount, org: Id, name: string, now: Time) {
    && t == s.(deployment := t.deployment, users := t.users, identities := t.identities,
               credentials := t.credentials, access := t.access, orgs := t.orgs, seats := t.seats, plans := t.plans)
    && Added(s, t, a, Owner, false, now) && t.users.Keys == {a.user} && Working(t, a.user)
    && t.orgs == map[org := Organization(name, true)] && t.seats.Keys == {Seat(org, a.user)}
    && Coherence.Places(t.seats, t.orgs, a.user) == {Coherence.Place(org, name, Owner)}
    && Coherence.QuotaOf(t.plans, t.grants, a.user) == Some(Coherence.Quota(FREE, "Free", Some(200000), now))
    && t.plans.Keys == {FREE, ADMIN_PLAN} && t.plans[FREE].active
    && t.plans[ADMIN_PLAN].name == "Admin" && t.plans[ADMIN_PLAN].active && t.plans[ADMIN_PLAN].limit == None
  }

  /** Setup commits exactly without a deployment. */
  lemma SetsUp(s: State, a: NewAccount, org: Id, name: string, now: Time)
    requires Inv(s)
    ensures CreateOwner(s, a, org, name, now).Commit? <==> AccountAllowed(a) && s.deployment.None?
    ensures CreateOwner(s, a, org, name, now).Commit? ==>
              SetUp(s, CreateOwner(s, a, org, name, now).state, a, org, name, now)
  {
    Preservation.BlankWhenRequired(s);
    if AccountAllowed(a) && s.deployment.None? {
      Preservation.BlankTables(s);
      hide Inv, AccountAllowed, SetupRequired, SetUp;
      FirstRows(s, a, org, name, now);
    }
  }

  lemma FirstRows(s: State, a: NewAccount, org: Id, name: string, now: Time)
    requires s.users == map[] && s.identities == map[] && s.credentials == map[] && s.access == map[]
    requires s.orgs == map[] && s.seats == map[] && s.plans == map[] && s.grants == map[]
    requires AccountAllowed(a) && SetupRequired(s)
    ensures SetUp(s, CreateOwner(s, a, org, name, now).state, a, org, name, now)
  {
    hide AccountAllowed, SetupRequired;
    var t := CreateOwner(s, a, org, name, now).state;
    assert t.seats == map[Seat(org, a.user) := Membership(Owner, true, now)];
  }

  // ---- avatar -----------------------------------------------------------------------------

  /** An avatar update changes only the avatar, and tells users with active access. */
  lemma UpdatesAvatar(s: State, user: Id, avatar: string, now: Time)
    ensures var tx := UpdateAvatar(s, user, avatar, now);
            && (tx.Commit? <==> user in s.users && s.users[user].active)
            && (tx.Commit? ==>
                  var t := tx.state;
                  && t == s.(users := t.users, log := t.log) && OnlyAt(s.users, t.users, user)
                  && t.users[user] == s.users[user].(avatar := avatar, updatedAt := now)
                  && Adds(s.log, t.log, if user in s.access && s.access[user].active
                                        then [Draft(user, Account, ProfileChanged, None, false, now)] else []))
  {
    NothingAdded(s.log);
    OneAdded(s.log, ProfileDraft(user, now));
    hide Adds, Append;
  }

  // ---- access -------------------------------------------------------------------------------

  /** The name, as long as access stays; then role or status. */
  function AccessNews(row: Access, name: string, user: Id, next: Change, now: Time): seq<Draft> {
    (if next.name != name && next.active then [Draft(user, Account, ProfileChanged, None, false, now)] else [])
    + (if next.role != row.role || next.active != row.active
       then [Draft(user, Account, PrincipalChanged, None, false, now)] else [])
  }

  /** The access row is the one asked for, the name too; a suspended user's sessions are revoked; the
      events say so, and nothing else has happened. */
  ghost predicate Rewritten(s: State, t: State, user: Id, next: Change, now: Time)
    requires user in s.users && user in s.access
  {
    && t == s.(access := t.access, users := t.users, sessions := t.sessions, log := t.log)
    && OnlyAt(s.access, t.access, user)
    && t.access[user] == Access(next.role, next.active, s.access[user].webDisabled, now)
    && Renamed(s, t, user, next.name, now)
    && t.sessions.Keys == s.sessions.Keys
    && (forall k <- s.sessions.Keys ::
          t.sessions[k] ==
            s.sessions[k].(revoked := s.sessions[k].revoked || (s.sessions[k].user == user && !next.active)))
    && Adds(s.log, t.log, AccessNews(s.access[user], s.users[user].displayName, user, next, now))
  }

  /** Nobody else's row changes, and of this one only the name, which sets the time when it is new. */
  ghost predicate Renamed(s: State, t: State, user: Id, name: string, now: Time)
    requires user in s.users
  {
    && OnlyAt(s.users, t.users, user)
    && t.users[user] == s.users[user].(displayName := name, updatedAt := t.users[user].updatedAt)
    && t.users[user].updatedAt == if name == s.users[user].displayName then s.users[user].updatedAt else now
  }

  lemma RenamedIs(s: State, t: State, user: Id, name: string, now: Time)
    requires user in s.users && t.users == RenamedUsers(s.users, user, name, now)
    ensures Renamed(s, t, user, name, now)
  {
  }

  lemma AccessNewsIs(log: seq<Event>, row: Access, name: string, user: Id, next: Change, now: Time)
    ensures Adds(log, AccessLog(log, next.name != name, user, row, next, now), AccessNews(row, name, user, next, now))
  {
    var renamed, changed := ProfileDraft(user, now), PrincipalDraft(user, now);
    NothingAdded(log);
    OneAdded(log, renamed);
    OneAdded(log, changed);
    TwoAdded(log, renamed, changed);
    assert [renamed] + [changed] == [renamed, changed] && [renamed] + [] == [renamed] && [] + [changed] == [changed];
    hide Adds, Append;
  }

  lemma RewrittenIs(s: State, user: Id, next: Change, now: Time)
    requires user in s.users && user in s.access
    ensures Rewritten(s, ChangeAccess(s, user, next, now), user, next, now)
  {
    var t := ChangeAccess(s, user, next, now);
    AccessNewsIs(s.log, s.access[user], s.users[user].displayName, user, next, now);
    RenamedIs(s, t, user, next.name, now);
    hide Adds, AccessNews, AccessLog, Renamed, RenamedUsers;
  }

  /** A committed access update writes what was asked for, against the version the caller saw. Afterwards
      the user has access exactly if account and update are active; nobody else's access changes. */
  lemma UpdatesAccess(s: State, user: Id, actor: Id, expected: Expected, next: Change, now: Time)
    requires UpdateDeploymentMember(s, user, actor, expected, next, now).Commit?
    ensures user in s.users && user in s.access
    ensures expected.role == s.access[user].role && expected.active == s.access[user].active
    ensures expected.version ==
      if s.users[user].updatedAt < s.access[user].updatedAt then s.access[user].updatedAt else s.users[user].updatedAt
    ensures var t := UpdateDeploymentMember(s, user, actor, expected, next, now).state;
            && Rewritten(s, t, user, next, now)
            && (HasAccess(t, user) <==> s.users[user].active && next.active)
            && (forall u :: u != user ==> (HasAccess(t, u) <==> HasAccess(s, u)))
  {
    RewrittenIs(s, user, next, now);
    hide Administers, ChangeAccess, RenameAllowed, Adds;
  }

  /** How an access update fails: no such user, a name that is not allowed, or a conflict. */
  lemma AccessFaults(s: State, user: Id, actor: Id, expected: Expected, next: Change, now: Time)
    requires s.users.Keys == s.access.Keys
    ensures var tx := UpdateDeploymentMember(s, user, actor, expected, next, now);
            && (tx == Abort(NotFound) <==> user !in s.users)
            && (tx == Abort(RequestInvalid) <==>
                  user in s.users && next.name != s.users[user].displayName && !Texts.DisplayNameAllowed(next.name))
            && (tx.Abort? ==> tx.fault in {NotFound, RequestInvalid, StateConflict})
  {
    hide Administers, ChangeAccess, AccessVersion, Texts.DisplayNameAllowed;
    assert user in s.users.Keys <==> user in s.access.Keys;
  }

  /** A suspension works at once: no session of the user resolves and no device is exchanged. */
  lemma SuspendsAtOnce(s: State, user: Id, actor: Id, expected: Expected, next: Change, now: Time)
    requires UpdateDeploymentMember(s, user, actor, expected, next, now).Commit? && !next.active
    ensures var t := UpdateDeploymentMember(s, user, actor, expected, next, now).state;
            Shut(t, user)
  {
    UpdatesAccess(s, user, actor, expected, next, now);
    var t := UpdateDeploymentMember(s, user, actor, expected, next, now).state;
    hide UpdateDeploymentMember, Rewritten;
    NoAccessShuts(t, user);
  }

  /** Nothing of the user's works. */
  ghost predicate Shut(t: State, user: Id) {
    && !Working(t, user)
    && (forall k, when :: k in t.sessions && t.sessions[k].user == user ==> !Suspension.Resolves(t, k, when))
    && (forall n :: n in t.nodes && t.nodes[n].owner == user ==> !Machines.ExchangeAdmits(t, n))
  }

  lemma NoAccessShuts(t: State, user: Id)
    requires !HasAccess(t, user)
    ensures Shut(t, user)
  {
    hide HasAccess, InOrg, LiveAgent;
  }

  /** Somebody changes this user's access. */
  ghost predicate Lifts(s: State, a: Action, user: Id) {
    a.DoUpdateAccess? && a.user == user && a.next.active && Execute(s, a).Commit?
  }

  /** Only an access update that lifts it ends a suspension. */
  lemma StaysSuspended(s: State, a: Action, user: Id)
    requires Inv(s) && Allowed(s, a) && user in s.access && !s.access[user].active && !Lifts(s, a, user)
    ensures user in Step(s, a).access && !Step(s, a).access[user].active
  {
    hide Inv, Allowed, Step, Lifts;
    Coherence.AccountOf(s, user);
    Preservation.SetUpByUser(s, user);
    if Frames.Founding(a) {
      InvitationLife.DeploymentStays(s, a);
    } else if a.DoUpdateAccess? {
      UpdateSuspends(s, a, user);
    } else if a.DoUpdateAvatar? {
      Setup.AvatarAccess(s, a);
    } else if Frames.AccountAction(a) || a.DoAccept? {
      NewUser(s, a, user);
      NewcomerKeeps(s, a, user);
    } else {
      Setup.AccessElsewhere(s, a);
    }
  }

  lemma UpdateSuspends(s: State, a: Action, user: Id)
    requires a.DoUpdateAccess? && user in s.access && !s.access[user].active && !Lifts(s, a, user)
    ensures user in Step(s, a).access && !Step(s, a).access[user].active
  {
    hide Execute;
    if Execute(s, a).Commit? {
      UpdateOf(s, a);
      UpdatesAccess(s, a.user, a.actor, a.expected, a.next, a.now);
    }
  }

  lemma NewUser(s: State, a: Action, user: Id)
    requires Inv(s) && Allowed(s, a) && user in s.access && (a.DoRegister? || a.DoCreateMember? || a.DoAccept?)
    ensures user != a.account.user
  {
    hide Inv;
    Coherence.AccountOf(s, user);
  }

  /** A new account leaves the access of everybody else alone. */
  lemma NewcomerKeeps(s: State, a: Action, user: Id)
    requires a.DoRegister? || a.DoCreateMember? || a.DoAccept?
    requires user in s.access && user != a.account.user
    ensures user in Step(s, a).access && Step(s, a).access[user] == s.access[user]
  {
    hide UsernameTaken, Working, Open, ActiveOrg, AccountAllowed, Administers, AddAccount;
    AddedKeeps(s, a.account, Member, false, a.now, user);
    AddedKeeps(s, a.account, Member, true, a.now, user);
    if a.DoCreateMember? {
      AddedKeeps(s, a.account, a.role, false, a.now, user);
    }
  }

  lemma AddedKeeps(s: State, a: NewAccount, role: Role, webDisabled: bool, now: Time, user: Id)
    requires user in s.access && user != a.user
    ensures var t := AddAccount(s, a, role, webDisabled, now);
            user in t.access && t.access[user] == s.access[user] && t.invitations == s.invitations
  {
  }

  lemma UpdateOf(s: State, a: Action)
    requires a.DoUpdateAccess?
    ensures Execute(s, a) == UpdateDeploymentMember(s, a.user, a.actor, a.expected, a.next, a.now)
  {
  }

  /**
   Main result. A suspension lasts: until an access update lifts it, nothing of the user's works
   in any later state, whatever sessions are created and whatever devices are registered.
   */
  lemma {:induction false} SuspensionLasts(states: seq<State>, actions: seq<Action>, i: nat, j: nat, user: Id)
    requires Trace(states, actions) && i <= j < |states|
    requires user in states[i].access && !states[i].access[user].active
    requires forall k :: i <= k < j ==> !Lifts(states[k], actions[k], user)
    ensures user in states[j].access && !states[j].access[user].active && Shut(states[j], user)
    decreases j - i
  {
    hide Inv, Allowed, Step, Lifts, Shut;
    if i < j {
      SuspensionLasts(states, actions, i, j - 1, user);
      Preservation.RunKeeps(states, actions, j - 1);
      StaysSuspended(states[j - 1], actions[j - 1], user);
    }
    NoAccessShuts(states[j], user);
  }
}
