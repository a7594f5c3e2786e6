/**
 What a committed organization command or member update leaves behind, row by row and event by
 event; and that names and seats stay as written until a command for them changes them.
 */
module OrganizationEffects {
  import opened Records
  import opened InvalidationLog
  import opened Schema
  import opened Organizations
  import opened Control
  import AccountEffects
  import Coherence
  import Frames
  import InvitationLife
  import Invitations
  import Preservation
  import Texts

  function News(user: Id, org: Id, revoked: bool, now: Time): Draft {
    Draft(user, Account, OrganizationChanged, Some(org), revoked, now)
  }

  // ---- founding and joining ----------------------------------------------------------------

  /** The user has taken the seat: nobody else's has changed, and the user alone is told. */
  ghost predicate Seated(s: State, t: State, org: Id, user: Id, role: Role, now: Time) {
    && OnlyAt(s.seats, t.seats, Seat(org, user)) && t.seats[Seat(org, user)] == Membership(role, true, now)
    && Adds(s.log, t.log, [News(user, org, false, now)])
  }

  lemma SeatedIs(s: State, t: State, org: Id, user: Id, role: Role, now: Time)
    requires t.seats == s.seats[Seat(org, user) := Membership(role, true, now)]
    requires t.log == Append(s.log, OrgDraft(user, org, false, now))
    ensures Seated(s, t, org, user, role, now)
  {
    OneAdded(s.log, OrgDraft(user, org, false, now));
    hide Adds;
  }

  /** The organization is there under its name, with its founder as owner. */
  ghost predicate Created(s: State, t: State, org: Id, name: string, user: Id, now: Time) {
    && t == s.(orgs := t.orgs, seats := t.seats, log := t.log)
    && OnlyAt(s.orgs, t.orgs, org) && t.orgs[org] == Organization(name, true)
    && Seated(s, t, org, user, Owner, now)
  }

  lemma FreeUser(s: State, user: Id)
    requires Inv(s)
    ensures HasOrg(s, user) <==> exists o :: ActiveSeat(s.seats, o, user)
  {
    hide Inv;
    Coherence.SeatsOf(s);
    if o :| ActiveSeat(s.seats, o, user) {
      assert Seat(o, user) in s.seats.Keys;
    }
  }

  /** Whoever works here and has no seat can found an organization, and then has just that place. */
  lemma Creates(s: State, actor: Id, home: Option<Id>, org: Id, name: string, now: Time)
    requires Inv(s) && org !in s.orgs
    ensures var tx := Mutate(s, actor, home, Create(org, name), now);
            && (tx.Commit? <==> Working(s, actor) && forall o :: !ActiveSeat(s.seats, o, actor))
            && (tx.Commit? ==>
                  && Created(s, tx.state, org, name, actor, now)
                  && Coherence.Places(tx.state.seats, tx.state.orgs, actor) == {Coherence.Place(org, name, Owner)})
  {
    FreeUser(s, actor);
    hide Inv, HasOrg, Working, Append, Created;
    var tx := Mutate(s, actor, home, Create(org, name), now);
    if tx.Commit? {
      CreatedIs(s, org, name, actor, now);
      OnlyPlace(s, tx.state, org, actor, Owner, now);
      hide Mutate;
    }
  }

  lemma CreatedIs(s: State, org: Id, name: string, user: Id, now: Time)
    ensures Created(s, Notify(Found(s, org, name, user, now), OrgDraft(user, org, false, now)), org, name, user, now)
  {
    hide Append, Seated;
    SeatedIs(s, Notify(Found(s, org, name, user, now), OrgDraft(user, org, false, now)), org, user, Owner, now);
  }

  /** Without another seat the new one is the user's only place. */
  lemma OnlyPlace(s: State, t: State, org: Id, user: Id, role: Role, now: Time)
    requires forall o :: !ActiveSeat(s.seats, o, user)
    requires t.seats == s.seats[Seat(org, user) := Membership(role, true, now)] && ActiveOrg(t.orgs, org)
    ensures Coherence.Places(t.seats, t.orgs, user) == {Coherence.Place(org, t.orgs[org].name, role)}
  {
    var only := Coherence.Place(org, t.orgs[org].name, role);
    assert Seat(org, user) in t.seats.Keys && only in Coherence.Places(t.seats, t.orgs, user);
    forall p | p in Coherence.Places(t.seats, t.orgs, user)
      ensures p == only
    {
      var k :| k in t.seats.Keys && k.user == user && t.seats[k].active && ActiveOrg(t.orgs, k.org)
        && p == Coherence.Place(k.org, t.orgs[k.org].name, t.seats[k].role);
      assert k != Seat(org, user) ==> ActiveSeat(s.seats, k.org, user);
    }
  }

  /** The invited seat is taken and the invitation used. */
  ghost predicate JoinedBy(s: State, t: State, i: Id, user: Id, now: Time)
    requires i in s.invitations
  {
    var inv := s.invitations[i];
    && t == s.(seats := t.seats, invitations := t.invitations, log := t.log)
    && Seated(s, t, inv.org, user, inv.role, now)
    && OnlyAt(s.invitations, t.invitations, i)
    && t.invitations[i] == inv.(acceptedBy := Some(user), acceptedAt := Some(now))
  }

  /** Whoever works here and has no seat can use an open invitation, and then has just that place. */
  lemma Joins(s: State, actor: Id, home: Option<Id>, token: Id, i: Id, now: Time)
    requires Inv(s) && i in s.invitations && s.invitations[i].token == token
    ensures Mutate(s, actor, home, Join(token), now).Commit?
         <==> Working(s, actor) && AccountEffects.Usable(s, i, now) && forall o :: !ActiveSeat(s.seats, o, actor)
    ensures Mutate(s, actor, home, Join(token), now).Commit? ==>
              var t, inv := Mutate(s, actor, home, Join(token), now).state, s.invitations[i];
              && JoinedBy(s, t, i, actor, now) && inv.org in s.orgs
              && Coherence.Places(t.seats, t.orgs, actor)
                 == {Coherence.Place(inv.org, s.orgs[inv.org].name, inv.role)}
  {
    AccountEffects.InvitationIs(s, token, i);
    FreeUser(s, actor);
    JoinDecided(s, actor, home, token, i, now);
    hide Inv, Mutate, HasOrg, Working, JoinedBy, Notify, Accept, Enter;
    if Mutate(s, actor, home, Join(token), now).Commit? {
      JoinedIs(s, i, actor, now);
      JoinedTables(s, i, actor, now);
      OnlyPlace(s, Mutate(s, actor, home, Join(token), now).state, s.invitations[i].org, actor,
        s.invitations[i].role, now);
    }
  }

  lemma JoinDecided(s: State, actor: Id, home: Option<Id>, token: Id, i: Id, now: Time)
    requires InvitationByToken(s.invitations, token) == Some(i)
    ensures var inv := s.invitations[i];
            if Working(s, actor) && !HasOrg(s, actor) && AccountEffects.Usable(s, i, now) then
              Mutate(s, actor, home, Join(token), now)
                == Commit(Notify(Accept(Enter(s, inv.org, actor, inv.role, now), i, actor, now),
                     OrgDraft(actor, inv.org, false, now)))
            else Mutate(s, actor, home, Join(token), now).Abort?
  {
    hide Working, HasOrg, Append;
  }

  lemma JoinedTables(s: State, i: Id, user: Id, now: Time)
    requires i in s.invitations
    ensures var inv := s.invitations[i];
            var t := Notify(Accept(Enter(s, inv.org, user, inv.role, now), i, user, now),
                       OrgDraft(user, inv.org, false, now));
            && t.orgs == s.orgs
            && t.seats == s.seats[Seat(inv.org, user) := Membership(inv.role, true, now)]
  {
    hide Append;
  }

  lemma JoinedIs(s: State, i: Id, user: Id, now: Time)
    requires i in s.invitations
    ensures var inv := s.invitations[i];
            JoinedBy(s, Notify(Accept(Enter(s, inv.org, user, inv.role, now), i, user, now),
              OrgDraft(user, inv.org, false, now)), i, user, now)
  {
    hide Append, Seated;
    var inv := s.invitations[i];
    SeatedIs(s, Notify(Accept(Enter(s, inv.org, user, inv.role, now), i, user, now),
      OrgDraft(user, inv.org, false, now)), inv.org, user, inv.role, now);
  }

  lemma UnknownInvitation(s: State, actor: Id, home: Option<Id>, token: Id, now: Time)
    requires forall i :: i in s.invitations ==> s.invitations[i].token != token
    ensures Mutate(s, actor, home, Join(token), now).Abort?
  {
  }

  // ---- leaving and dissolving -------------------------------------------------------------------

  /** The seats of these users in the organization end, and no others. */
  ghost predicate SeatsEnded(s: State, t: State, org: Id, users: set<Id>, now: Time) {
    && t.seats.Keys == s.seats.Keys
    && forall k <- s.seats.Keys ::
         t.seats[k] == if k.org == org && k.user in users then Membership(s.seats[k].role, false, now) else s.seats[k]
  }

  /** So do their agents and devices there, and no others. */
  ghost predicate WorkEnded(s: State, t: State, org: Id, users: set<Id>) {
    && t.agents.Keys == s.agents.Keys && t.nodes.Keys == s.nodes.Keys
    && (forall a <- s.agents.Keys ::
          var ends := s.agents[a].org == org && s.agents[a].owner in users;
          t.agents[a] == s.agents[a].(active := s.agents[a].active && !ends))
    && (forall n <- s.nodes.Keys ::
          var ends := s.nodes[n].org == org && s.nodes[n].owner in users;
          t.nodes[n] == s.nodes[n].(revoked := s.nodes[n].revoked || ends))
  }

  lemma SeatsEndedIs(s: State, t: State, org: Id, users: set<Id>, now: Time)
    requires t.seats == RevokeSeats(s.seats, org, users, now)
    ensures SeatsEnded(s, t, org, users, now)
  {
  }

  lemma WorkEndedIs(s: State, t: State, org: Id, users: set<Id>)
    requires t.agents == RevokeAgents(s.agents, org, users) && t.nodes == RevokeNodes(s.nodes, org, users)
    ensures WorkEnded(s, t, org, users)
  {
  }

  /** Leaving ends what the leaver has in the organization, tells the leaver, and does nothing else. */
  lemma Leaves(s: State, actor: Id, org: Id, now: Time)
    requires Mutate(s, actor, Some(org), Leave, now).Commit?
    ensures var t := Mutate(s, actor, Some(org), Leave, now).state;
            && t == s.(seats := t.seats, agents := t.agents, nodes := t.nodes, log := t.log)
            && SeatsEnded(s, t, org, {actor}, now) && WorkEnded(s, t, org, {actor})
            && Adds(s.log, t.log, [News(actor, org, true, now)])
  {
    hide Working, HasOrg, Append, RevokeSeats, RevokeAgents, RevokeNodes, SeatsEnded, WorkEnded, Adds;
    var t := Mutate(s, actor, Some(org), Leave, now).state;
    assert t == Evict(s, org, [actor], now);
    hide Mutate;
    OneListed(s.log, actor, org, now);
    SeatsEndedIs(s, t, org, {actor}, now);
    WorkEndedIs(s, t, org, {actor});
  }

  lemma OneListed(log: seq<Event>, user: Id, org: Id, now: Time)
    ensures UserSet([user]) == {user}
    ensures Adds(log, ForUsers(log, [user], OrgDraft(0, org, true, now)), [News(user, org, true, now)])
  {
    assert [user][..0] == [];
    OneAdded(log, News(user, org, true, now));
  }

  /** What every active member has there ends, the organization is disabled and keeps its name. */
  ghost predicate Dissolved(s: State, t: State, org: Id, now: Time) {
    && t == s.(orgs := t.orgs, seats := t.seats, agents := t.agents, nodes := t.nodes, log := t.log)
    && OnlyAt(s.orgs, t.orgs, org) && org in s.orgs && t.orgs[org] == Organization(s.orgs[org].name, false)
    && SeatsEnded(s, t, org, Members(s.seats, org), now) && WorkEnded(s, t, org, Members(s.seats, org))
    && ToEach(s.log, t.log, Members(s.seats, org), News(0, org, true, now))
  }

  lemma Dissolves(s: State, actor: Id, org: Id, rows: seq<Id>, now: Time)
    requires Inv(s) && Admissible(s, Some(org), Dissolve(rows))
          && Mutate(s, actor, Some(org), Dissolve(rows), now).Commit?
    ensures Dissolved(s, Mutate(s, actor, Some(org), Dissolve(rows), now).state, org, now)
  {
    hide Inv, Dissolved, ForUsers, Members;
    Coherence.SeatsOf(s);
    DissolvedIs(s, org, rows, now);
    hide Working, HasOrg, Evict;
  }

  lemma DissolvedIs(s: State, org: Id, rows: seq<Id>, now: Time)
    requires Ordered(s.log) && org in s.orgs && Lists(rows, Members(s.seats, org))
    ensures var out := Evict(s, org, rows, now);
            org in out.orgs && Dissolved(s, out.(orgs := out.orgs[org := out.orgs[org].(active := false)]), org, now)
  {
    hide ForUsers, RevokeSeats, RevokeAgents, RevokeNodes, SeatsEnded, WorkEnded, ToEach, Members;
    var out := Evict(s, org, rows, now);
    var t := out.(orgs := s.orgs[org := s.orgs[org].(active := false)]);
    ForUsersToEach(s.log, rows, Members(s.seats, org), OrgDraft(0, org, true, now));
    assert UserSet(rows) == Members(s.seats, org);
    SeatsEndedIs(s, t, org, UserSet(rows), now);
    WorkEndedIs(s, t, org, UserSet(rows));
  }

  // ---- transfer and rename ------------------------------------------------------------------------

  /** The two roles change hands, and both are told, the new owner first. */
  lemma Transfers(s: State, actor: Id, org: Id, target: Id, now: Time)
    requires Mutate(s, actor, Some(org), Transfer(target), now).Commit?
    ensures var t := Mutate(s, actor, Some(org), Transfer(target), now).state;
            && t == s.(seats := t.seats, log := t.log) && t.seats.Keys == s.seats.Keys
            && Seat(org, actor) in s.seats && Seat(org, target) in s.seats && actor != target
            && t.seats[Seat(org, actor)] == Membership(Admin, true, now)
            && t.seats[Seat(org, target)] == Membership(Owner, true, now)
            && (forall k <- s.seats.Keys ::
                  k != Seat(org, actor) && k != Seat(org, target) ==> t.seats[k] == s.seats[k])
            && Adds(s.log, t.log, [News(target, org, false, now), News(actor, org, false, now)])
  {
    hide Working, HasOrg, HasAccess, Append, Adds;
    TwoAdded(s.log, News(target, org, false, now), News(actor, org, false, now));
  }

  /** The organization has the new name, and every active member is told once. */
  ghost predicate NameGiven(s: State, t: State, org: Id, name: string, now: Time) {
    && t == s.(orgs := t.orgs, log := t.log)
    && OnlyAt(s.orgs, t.orgs, org) && t.orgs[org] == Organization(name, true)
    && ToEach(s.log, t.log, Members(s.seats, org), News(0, org, false, now))
  }

  lemma RenamesTo(s: State, actor: Id, org: Id, name: string, rows: seq<Id>, now: Time)
    requires Inv(s) && Admissible(s, Some(org), Rename(name, rows))
          && Mutate(s, actor, Some(org), Rename(name, rows), now).Commit?
    ensures NameGiven(s, Mutate(s, actor, Some(org), Rename(name, rows), now).state, org, name, now)
  {
    hide Inv, NameGiven, ForUsers, Members;
    Coherence.SeatsOf(s);
    hide Working, HasOrg, Ordered, OneActiveSeat, OneOwner, Lists;
    NamedIs(s, org, name, rows, now);
  }

  lemma NamedIs(s: State, org: Id, name: string, rows: seq<Id>, now: Time)
    requires Ordered(s.log) && ActiveOrg(s.orgs, org) && Lists(rows, Members(s.seats, org))
    ensures NameGiven(s, s.(orgs := s.orgs[org := s.orgs[org].(name := name)],
                            log := ForUsers(s.log, rows, OrgDraft(0, org, false, now))), org, name, now)
  {
    ForUsersToEach(s.log, rows, Members(s.seats, org), OrgDraft(0, org, false, now));
    hide ForUsers, ToEach, Members, Ordered, Lists;
  }

  /** After a rename every active member reads the new name at the old role. */
  lemma Renames(s: State, actor: Id, org: Id, name: string, rows: seq<Id>, now: Time)
    requires Inv(s) && Admissible(s, Some(org), Rename(name, rows))
          && Mutate(s, actor, Some(org), Rename(name, rows), now).Commit?
    ensures var t := Mutate(s, actor, Some(org), Rename(name, rows), now).state;
            && NameGiven(s, t, org, name, now)
            && forall u <- Members(s.seats, org) ::
                 && ActiveSeat(s.seats, org, u)
                 && Coherence.Places(t.seats, t.orgs, u) == {Coherence.Place(org, name, s.seats[Seat(org, u)].role)}
  {
    hide Inv, Mutate, Admissible, ToEach, Members, OneOwner, OneActiveSeat, Ordered;
    var t := Mutate(s, actor, Some(org), Rename(name, rows), now).state;
    RenamesTo(s, actor, org, name, rows, now);
    Coherence.SeatsOf(s);
    forall u | u in Members(s.seats, org)
      ensures ActiveSeat(s.seats, org, u)
           && Coherence.Places(t.seats, t.orgs, u) == {Coherence.Place(org, name, s.seats[Seat(org, u)].role)}
    {
      MemberSeat(s, org, u);
      PlaceRenamed(s.seats, t.orgs, org, u);
    }
  }

  lemma MemberSeat(s: State, org: Id, user: Id)
    ensures user in Members(s.seats, org) <==> ActiveSeat(s.seats, org, user)
  {
    if ActiveSeat(s.seats, org, user) {
      assert Seat(org, user) in s.seats.Keys;
    }
  }

  lemma PlaceRenamed(seats: map<Seat, Membership>, orgs: map<Id, Organization>, org: Id, user: Id)
    requires OneActiveSeat(seats) && ActiveSeat(seats, org, user) && ActiveOrg(orgs, org)
    ensures Coherence.Places(seats, orgs, user)
         == {Coherence.Place(org, orgs[org].name, seats[Seat(org, user)].role)}
  {
    var only := Coherence.Place(org, orgs[org].name, seats[Seat(org, user)].role);
    assert Seat(org, user) in seats.Keys && only in Coherence.Places(seats, orgs, user);
    forall p | p in Coherence.Places(seats, orgs, user)
      ensures p == only
    {
      var k :| k in seats.Keys && k.user == user && seats[k].active && ActiveOrg(orgs, k.org)
        && p == Coherence.Place(k.org, orgs[k.org].name, seats[k].role);
      assert ActiveSeat(seats, k.org, user);
    }
  }

  // ---- member updates ---------------------------------------------------------------------------------

  /** The name, where access is active; then the end of the seat, or a new role. */
  function MemberNews(s: State, org: Id, user: Id, next: Change, now: Time): seq<Draft>
    requires user in s.users && user in s.access && Seat(org, user) in s.seats
  {
    (if next.name != s.users[user].displayName && s.access[user].active
     then [Draft(user, Account, ProfileChanged, None, false, now)] else [])
    + (if !next.active then [News(user, org, true, now)]
       else if next.role != s.seats[Seat(org, user)].role then [News(user, org, false, now)] else [])
  }

  /** The seat and the name are the ones asked for; a removed member's agents and devices end; the
      events say so, and nothing else has happened. */
  ghost predicate Changed(s: State, t: State, org: Id, user: Id, next: Change, now: Time)
    requires user in s.users && user in s.access && Seat(org, user) in s.seats
  {
    && t == s.(users := t.users, seats := t.seats, agents := t.agents, nodes := t.nodes, log := t.log)
    && OnlyAt(s.seats, t.seats, Seat(org, user))
    && t.seats[Seat(org, user)] == Membership(next.role, next.active, now)
    && AccountEffects.Renamed(s, t, user, next.name, now)
    && (next.active ==> t.agents == s.agents && t.nodes == s.nodes)
    && (!next.active ==> WorkEnded(s, t, org, {user}))
    && Adds(s.log, t.log, MemberNews(s, org, user, next, now))
  }

  lemma MemberNewsIs(s: State, org: Id, user: Id, next: Change, now: Time)
    requires user in s.users && user in s.access && Seat(org, user) in s.seats
    ensures Adds(s.log,
              SeatLog(s.log, next.name != s.users[user].displayName && s.access[user].active, org, user,
                s.seats[Seat(org, user)].role, next, now),
              MemberNews(s, org, user, next, now))
  {
    var renamed, seat := ProfileDraft(user, now), News(user, org, !next.active, now);
    NothingAdded(s.log);
    OneAdded(s.log, renamed);
    OneAdded(s.log, seat);
    TwoAdded(s.log, renamed, seat);
    assert [renamed] + [seat] == [renamed, seat] && [renamed] + [] == [renamed] && [] + [seat] == [seat];
    hide Adds, Append;
  }

  lemma ChangedIs(s: State, org: Id, user: Id, next: Change, now: Time)
    requires user in s.users && user in s.access && Seat(org, user) in s.seats
    ensures Changed(s, ChangeSeat(s, org, user, next, now), org, user, next, now)
  {
    var t := ChangeSeat(s, org, user, next, now);
    MemberNewsIs(s, org, user, next, now);
    AccountEffects.RenamedIs(s, t, user, next.name, now);
    if !next.active {
      WorkEndedIs(s, t, org, {user});
    }
    hide Adds, MemberNews, SeatLog, AccountEffects.Renamed, RenamedUsers, WorkEnded, RevokeAgents, RevokeNodes;
  }

  /** A committed member update writes what was asked for, against the version the caller saw; the user is
      an admin of the organization afterwards exactly if that was asked for. */
  lemma UpdatesMember(s: State, org: Id, user: Id, actor: Id, expected: Expected, next: Change, now: Time)
    requires UpdateMember(s, org, user, actor, expected, next, now).Commit?
    ensures user in s.users && user in s.access && ActiveSeat(s.seats, org, user)
    ensures var row := s.seats[Seat(org, user)];
            && expected.role == row.role && expected.active
            && expected.version == if s.users[user].updatedAt < row.updatedAt then row.updatedAt
              else s.users[user].updatedAt
    ensures var t := UpdateMember(s, org, user, actor, expected, next, now).state;
            && Changed(s, t, org, user, next, now)
            && (IsAdmin(t.seats, org, user) <==> next.active && next.role == Admin)
            && (ActiveSeat(t.seats, org, user) <==> next.active) && !IsOwner(t.seats, org, user)
  {
    ChangedIs(s, org, user, next, now);
    hide Manages, ChangeSeat, RenameAllowed, Adds, AccountEffects.Renamed, WorkEnded;
    NotAnOwner(s, org, user, actor, expected, next, now);
  }

  /** How a member update fails: no such user or seat, a name that is not allowed, or a conflict. */
  lemma MemberFaults(s: State, org: Id, user: Id, actor: Id, expected: Expected, next: Change, now: Time)
    requires s.users.Keys == s.access.Keys
    ensures var tx := UpdateMember(s, org, user, actor, expected, next, now);
            && (tx == Abort(NotFound) <==> user !in s.users || Seat(org, user) !in s.seats)
            && (tx == Abort(RequestInvalid) <==>
                  && user in s.users && Seat(org, user) in s.seats
                  && next.name != s.users[user].displayName && !Texts.DisplayNameAllowed(next.name))
            && (tx.Abort? ==> tx.fault in {NotFound, RequestInvalid, StateConflict})
  {
    hide Manages, ChangeSeat, SeatVersion, Texts.DisplayNameAllowed;
    assert user in s.users.Keys <==> user in s.access.Keys;
  }

  lemma NotAnOwner(s: State, org: Id, user: Id, actor: Id, expected: Expected, next: Change, now: Time)
    requires UpdateMember(s, org, user, actor, expected, next, now).Commit?
    ensures next.role != Owner
  {
    hide Working, ChangeSeat, RenameAllowed, SeatVersion;
  }

  // ---- names and seats last ----------------------------------------------------------------------------

  ghost predicate Names(s: State, a: Action, org: Id) {
    a.DoMutate? && a.home == Some(org) && a.command.Rename? && Execute(s, a).Commit?
  }

  /** The commands that write this seat. */
  ghost predicate Touches(s: State, a: Action, org: Id, user: Id) {
    && Execute(s, a).Commit?
    && (|| (a.DoMutate? && a.actor == user && (a.command.Create? || a.command.Join?))
        || (a.DoMutate? && a.home == Some(org)
            && (a.command.Dissolve? || (a.command.Leave? && a.actor == user)
                || (a.command.Transfer? && (a.actor == user || a.command.target == user))))
        || (a.DoUpdateMember? && a.org == org && a.user == user)
        || (a.DoAccept? && a.account.user == user))
  }

  /** Without such a command the organization keeps its name and the user the seat. */
  ghost predicate Lasts(s: State, t: State, a: Action, org: Id, user: Id) {
    && (org in s.orgs && !Names(s, a, org) ==> org in t.orgs && t.orgs[org].name == s.orgs[org].name)
    && (Seat(org, user) in s.seats && !Touches(s, a, org, user) ==>
          Seat(org, user) in t.seats && t.seats[Seat(org, user)] == s.seats[Seat(org, user)])
  }

  lemma SameLasts(s: State, t: State, a: Action, org: Id, user: Id)
    requires t.orgs == s.orgs && t.seats == s.seats
    ensures Lasts(s, t, a, org, user)
  {
  }

  lemma LeaveLasts(s: State, a: Action, org: Id, user: Id)
    requires a.DoMutate? && a.home.Some? && a.command.Leave? && Execute(s, a).Commit?
    ensures Lasts(s, Step(s, a), a, org, user)
  {
    hide Mutate, Adds, WorkEnded;
    Leaves(s, a.actor, a.home.value, a.now);
  }

  lemma TransferLasts(s: State, a: Action, org: Id, user: Id)
    requires a.DoMutate? && a.home.Some? && a.command.Transfer? && Execute(s, a).Commit?
    ensures Lasts(s, Step(s, a), a, org, user)
  {
    hide Mutate, Adds;
    Transfers(s, a.actor, a.home.value, a.command.target, a.now);
  }

  lemma RenameLasts(s: State, a: Action, org: Id, user: Id)
    requires Inv(s) && Allowed(s, a) && a.DoMutate? && a.home.Some? && a.command.Rename? && Execute(s, a).Commit?
    ensures Lasts(s, Step(s, a), a, org, user)
  {
    hide Inv, Mutate, ToEach, Members, Admissible;
    RenamesTo(s, a.actor, a.home.value, a.command.name, a.command.rows, a.now);
  }

  lemma DissolveLasts(s: State, a: Action, org: Id, user: Id)
    requires Inv(s) && Allowed(s, a) && a.DoMutate? && a.home.Some? && a.command.Dissolve? && Execute(s, a).Commit?
    ensures Lasts(s, Step(s, a), a, org, user)
  {
    hide Inv, Mutate, ToEach, Members, Admissible, WorkEnded;
    Dissolves(s, a.actor, a.home.value, a.command.rows, a.now);
  }

  lemma EnteredLasts(s: State, a: Action, org: Id, user: Id)
    requires Inv(s) && Allowed(s, a) && a.DoMutate? && Execute(s, a).Commit? && (a.command.Create? || a.command.Join?)
    ensures Lasts(s, Step(s, a), a, org, user)
  {
    hide Inv, Mutate, Adds;
    if a.command.Create? {
      Creates(s, a.actor, a.home, a.command.org, a.command.name, a.now);
    } else {
      var i := InvitationByToken(s.invitations, a.command.token);
      if i.None? {
        UnknownInvitation(s, a.actor, a.home, a.command.token, a.now);
        assert false;
      } else {
        Joins(s, a.actor, a.home, a.command.token, i.value, a.now);
      }
    }
  }

  lemma MutateLasts(s: State, a: Action, org: Id, user: Id)
    requires Inv(s) && Allowed(s, a) && a.DoMutate?
    ensures Lasts(s, Step(s, a), a, org, user)
  {
    hide Inv, Allowed, Lasts, MutateHome, JoinByToken, Working, HasOrg, InOrg, Found, Notify;
    if Execute(s, a).Abort? {
      SameLasts(s, s, a, org, user);
    } else if a.command.Create? || a.command.Join? {
      EnteredLasts(s, a, org, user);
    } else if a.command.Leave? {
      LeaveLasts(s, a, org, user);
    } else if a.command.Transfer? {
      TransferLasts(s, a, org, user);
    } else if a.command.Rename? {
      RenameLasts(s, a, org, user);
    } else {
      DissolveLasts(s, a, org, user);
    }
  }

  lemma UpdateLasts(s: State, a: Action, org: Id, user: Id)
    requires a.DoUpdateMember?
    ensures Lasts(s, Step(s, a), a, org, user)
  {
    hide UpdateMember, Adds, WorkEnded, AccountEffects.Renamed;
    if Execute(s, a).Commit? {
      UpdatesMember(s, a.org, a.user, a.actor, a.expected, a.next, a.now);
    }
  }

  lemma AcceptLasts(s: State, a: Action, org: Id, user: Id)
    requires Inv(s) && a.DoAccept?
    ensures Lasts(s, Step(s, a), a, org, user)
  {
    hide Inv, Invitations.AcceptInvitation, AccountEffects.Added, AccountEffects.Usable, AccountEffects.Joined, Lasts;
    var i := InvitationByToken(s.invitations, a.token);
    if Execute(s, a).Abort? {
      SameLasts(s, s, a, org, user);
    } else if i.None? {
      AccountEffects.UnknownInvitation(s, a.token, a.account, a.now);
      assert false;
    } else {
      AccountEffects.AcceptsInvitation(s, a.token, i.value, a.account, a.now);
      JoinedLasts(s, Step(s, a), a, i.value, org, user);
    }
  }

  lemma JoinedLasts(s: State, t: State, a: Action, i: Id, org: Id, user: Id)
    requires a.DoAccept? && Execute(s, a).Commit? && i in s.invitations
    requires AccountEffects.Joined(s, t, i, a.account.user, a.now)
    ensures Lasts(s, t, a, org, user)
  {
    hide Execute;
  }

  lemma ElsewhereLasts(s: State, a: Action, org: Id, user: Id)
    requires !Frames.Founding(a) && !a.DoMutate? && !a.DoUpdateMember? && !a.DoAccept?
    ensures Lasts(s, Step(s, a), a, org, user)
  {
    hide Step, Execute, Lasts, Frames.AccountsOnly, Frames.InvitationsOnly, Frames.SessionsOnly, Frames.DevicesOnly,
      Frames.BillingOnly;
    var t := Step(s, a);
    if Frames.AccountAction(a) {
      Frames.AccountFrame(s, a);
      Frames.AccountsRest(s, t);
    } else if Frames.InvitationAction(a) {
      Frames.InvitationFrame(s, a);
      Frames.InvitationsRest(s, t);
    } else if Frames.SessionAction(a) {
      Frames.SessionFrame(s, a);
      Frames.SessionsRest(s, t);
    } else if Frames.DeviceAction(a) {
      Frames.DeviceFrame(s, a);
      Frames.DevicesRest(s, t);
    } else {
      Frames.BillingFrame(s, a);
      Frames.BillingRest(s, t);
    }
    SameLasts(s, t, a, org, user);
  }

  lemma FoundingLasts(s: State, a: Action, org: Id, user: Id)
    requires Inv(s) && Frames.Founding(a)
    ensures Lasts(s, Step(s, a), a, org, user)
  {
    hide Inv, Step, Execute;
    if s.deployment.Some? {
      InvitationLife.DeploymentStays(s, a);
    } else {
      Preservation.BlankTables(s);
    }
  }

  lemma StepLasts(s: State, a: Action, org: Id, user: Id)
    requires Inv(s) && Allowed(s, a)
    ensures Lasts(s, Step(s, a), a, org, user)
  {
    hide Inv, Allowed, Step, Lasts;
    if Frames.Founding(a) {
      FoundingLasts(s, a, org, user);
    } else if a.DoMutate? {
      MutateLasts(s, a, org, user);
    } else if a.DoUpdateMember? {
      UpdateLasts(s, a, org, user);
    } else if a.DoAccept? {
      AcceptLasts(s, a, org, user);
    } else {
      ElsewhereLasts(s, a, org, user);
    }
  }

  /** Main result. In every run an organization keeps its name until the next committed rename. */
  lemma {:induction false} NameStays(states: seq<State>, actions: seq<Action>, i: nat, j: nat, org: Id)
    requires Trace(states, actions) && i <= j < |states|
    requires forall k :: i <= k < j ==> !Names(states[k], actions[k], org)
    ensures org in states[i].orgs ==> org in states[j].orgs && states[j].orgs[org].name == states[i].orgs[org].name
    decreases j - i
  {
    hide Inv, Allowed, Step, Names, Touches;
    if i < j {
      NameStays(states, actions, i, j - 1, org);
      Preservation.RunKeeps(states, actions, j - 1);
      StepLasts(states[j - 1], actions[j - 1], org, 0);
    }
  }

  /** Main result. In every run a user keeps a seat, role and all, until the next committed command that
      writes it. */
  lemma {:induction false} SeatStays(states: seq<State>, actions: seq<Action>, i: nat, j: nat, org: Id, user: Id)
    requires Trace(states, actions) && i <= j < |states|
    requires forall k :: i <= k < j ==> !Touches(states[k], actions[k], org, user)
    ensures Seat(org, user) in states[i].seats ==>
              && Seat(org, user) in states[j].seats
              && states[j].seats[Seat(org, user)] == states[i].seats[Seat(org, user)]
    decreases j - i
  {
    hide Inv, Allowed, Step, Names, Touches;
    if i < j {
      SeatStays(states, actions, i, j - 1, org, user);
      Preservation.RunKeeps(states, actions, j - 1);
      StepLasts(states[j - 1], actions[j - 1], org, user);
    }
  }

  /** So after a committed rename the name is the one given, and after a committed member update the
      seat is the one asked for, as long as nothing newer is committed for it. */
  lemma NameLasts(states: seq<State>, actions: seq<Action>, i: nat, j: nat, org: Id)
    requires Trace(states, actions) && i < j < |states| && Names(states[i], actions[i], org)
    requires forall k :: i < k < j ==> !Names(states[k], actions[k], org)
    ensures org in states[j].orgs && states[j].orgs[org].name == actions[i].command.name
  {
    hide Inv, Mutate, ToEach, Members;
    var s, a := states[i], actions[i];
    Preservation.RunKeeps(states, actions, i);
    RenamesTo(s, a.actor, org, a.command.name, a.command.rows, a.now);
    hide Step, Allowed, Names;
    NameStays(states, actions, i + 1, j, org);
  }

  lemma RoleLasts(states: seq<State>, actions: seq<Action>, i: nat, j: nat)
    requires Trace(states, actions) && i < j < |states| && actions[i].DoUpdateMember?
    requires Execute(states[i], actions[i]).Commit?
    requires forall k :: i < k < j ==> !Touches(states[k], actions[k], actions[i].org, actions[i].user)
    ensures var a := actions[i];
            && Seat(a.org, a.user) in states[j].seats
            && states[j].seats[Seat(a.org, a.user)] == Membership(a.next.role, a.next.active, a.now)
  {
    hide Inv, UpdateMember, Adds, WorkEnded, AccountEffects.Renamed;
    var s, a := states[i], actions[i];
    UpdatesMember(s, a.org, a.user, a.actor, a.expected, a.next, a.now);
    hide Step, Allowed, Touches;
    SeatStays(states, actions, i + 1, j, a.org, a.user);
  }
}
