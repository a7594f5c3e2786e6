/**
 Cache coherence: a replica that has seen every event for a user up to a cursor
 holds that user's current principal and entitlement, as long as no later event
 names the user and the user still has deployment access.
 */
module Coherence {
  import opened Records
  import opened InvalidationLog
  import opened Schema
  import opened Organizations
  import opened Accounts
  import opened Entitlements
  import opened Control
  import Devices
  import Frames
  import Invitations
  import Preservation
  import Sessions

  /** An active organization as `resolveSession` joins it. */
  datatype Place = Place(org: Id, name: string, role: Role)

  /** Columns of `EffectiveEntitlement`. */
  datatype Quota = Quota(key: string, name: string, limit: Option<nat>, updatedAt: Time)

  /** Everything a replica caches about one user. */
  datatype View = View(
    role: Role, active: bool, webDisabled: bool, username: string, displayName: string, avatar: string,
    userActive: bool,
    places: set<Place>, quota: Option<Quota>)

  function Places(seats: map<Seat, Membership>, orgs: map<Id, Organization>, user: Id): set<Place> {
    set k <- seats.Keys | k.user == user && seats[k].active && ActiveOrg(orgs, k.org) ::
      Place(k.org, orgs[k.org].name, seats[k].role)
  }

  function QuotaOf(plans: map<string, Plan>, grants: map<Id, Grant>, user: Id): Option<Quota> {
    var key := if user in grants then grants[user].plan else FREE;
    if key !in plans then None
    else Some(Quota(key, plans[key].name, plans[key].limit,
      if user in grants then Later(plans[key].updatedAt, grants[user].updatedAt) else plans[key].updatedAt))
  }

  function ViewOf(s: State, user: Id): View
    requires user in s.users && user in s.access
  {
    View(s.access[user].role, s.access[user].active, s.access[user].webDisabled,
      s.users[user].username, s.users[user].displayName, s.users[user].avatar, s.users[user].active,
      Places(s.seats, s.orgs, user), QuotaOf(s.plans, s.grants, user))
  }

  /** The cached organization is unique: the join behind a principal returns at most one row. */
  lemma OnePlace(s: State, user: Id, a: Place, b: Place)
    requires Inv(s) && a in Places(s.seats, s.orgs, user) && b in Places(s.seats, s.orgs, user)
    ensures a == b
  {
    hide AccountsFit, InvitationsFit, SessionsFit, AgentsFit, NodesFit, NodesBacked, PlansFit, ReceiptsFit, SetupFits,
      Ordered, HasOwner;
    assert ActiveSeat(s.seats, a.org, user) && ActiveSeat(s.seats, b.org, user);
  }

  // ---- which events a transaction adds for a user ----------------------------------

  lemma AppendQuiet(log: seq<Event>, body: Draft, user: Id)
    ensures log <= Append(log, body)
    ensures Quiet(Append(log, body), |log|, user) <==> body.user != user
  {
    assert Append(log, body)[|log|].body == body;
  }

  lemma ForUsersQuiet(log: seq<Event>, rows: seq<Id>, template: Draft, user: Id)
    requires Ordered(log)
    ensures log <= ForUsers(log, rows, template)
    ensures Quiet(ForUsers(log, rows, template), |log|, user) <==> user !in rows
  {
    ForUsersShape(log, rows, template);
    var out := ForUsers(log, rows, template);
    if user in rows {
      var i :| 0 <= i < |rows| && rows[i] == user;
      assert out[|log| + i].body.user == user;
    } else {
      forall i | |log| <= i < |out|
        ensures out[i].body.user != user
      {
        assert out[|log| + (i - |log|)].body.user == rows[i - |log|];
      }
    }
  }

  lemma ForNodesQuiet(log: seq<Event>, rows: seq<Id>, template: Draft)
    requires Ordered(log)
    ensures log <= ForNodes(log, rows, template)
    ensures Quiet(ForNodes(log, rows, template), |log|, template.user) <==> rows == []
    ensures forall user :: user != template.user ==> Quiet(ForNodes(log, rows, template), |log|, user)
  {
    ForNodesShape(log, rows, template);
    var out := ForNodes(log, rows, template);
    forall i | |log| <= i < |out|
      ensures out[i].body.user == template.user
    {
      assert out[|log| + (i - |log|)].body == template.(target := NodeRef(rows[i - |log|]));
    }
    if rows != [] {
      assert out[|log|].body.user == template.user;
    }
  }

  ghost predicate SameView(s: State, t: State, user: Id)
    requires user in s.users && user in s.access && user in t.users && user in t.access
  {
    && t.access[user].role == s.access[user].role
    && t.access[user].active == s.access[user].active
    && t.access[user].webDisabled == s.access[user].webDisabled
    && t.users[user].username == s.users[user].username
    && t.users[user].displayName == s.users[user].displayName
    && t.users[user].avatar == s.users[user].avatar
    && t.users[user].active == s.users[user].active
    && Places(t.seats, t.orgs, user) == Places(s.seats, s.orgs, user)
    && QuotaOf(t.plans, t.grants, user) == QuotaOf(s.plans, s.grants, user)
  }

  lemma SameViewIs(s: State, t: State, user: Id)
    requires user in s.users && user in s.access && user in t.users && user in t.access
    ensures SameView(s, t, user) <==> ViewOf(t, user) == ViewOf(s, user)
  {
    hide Places, QuotaOf;
  }

  /** The log grows at its end, accounts stay, and whoever keeps access without a new
      event still reads the same. */
  ghost predicate Coherent(s: State, t: State, user: Id) {
    && s.log <= t.log
    && (user in s.users ==> user in t.users)
    && (Quiet(t.log, |s.log|, user) && user in s.users && user in t.access && t.access[user].active ==>
          user in s.access && SameView(s, t, user))
  }

  // ---- organizations ---------------------------------------------------------------

  function PlaceIn(seats: map<Seat, Membership>, orgs: map<Id, Organization>, org: Id, user: Id): Option<Place> {
    if !ActiveSeat(seats, org, user) || !ActiveOrg(orgs, org) then None
    else Some(Place(org, orgs[org].name, seats[Seat(org, user)].role))
  }

  lemma SamePlaces(before: map<Seat, Membership>, orgs: map<Id, Organization>, after: map<Seat, Membership>,
      orgs': map<Id, Organization>, user: Id)
    requires forall o :: PlaceIn(before, orgs, o, user) == PlaceIn(after, orgs', o, user)
    ensures Places(before, orgs, user) == Places(after, orgs', user)
  {
    PlacesAre(before, orgs, user);
    PlacesAre(after, orgs', user);
  }

  lemma PlacesAre(seats: map<Seat, Membership>, orgs: map<Id, Organization>, user: Id)
    ensures forall p :: p in Places(seats, orgs, user) <==> PlaceIn(seats, orgs, p.org, user) == Some(p)
  {
    forall p
      ensures p in Places(seats, orgs, user) <==> PlaceIn(seats, orgs, p.org, user) == Some(p)
    {
      assert ActiveSeat(seats, p.org, user) ==> Seat(p.org, user) in seats.Keys;
    }
  }

  /** Transactions that touch seats and organizations only. */
  lemma CoherentPlaces(s: State, t: State, user: Id)
    requires t.users == s.users && t.access == s.access && t.plans == s.plans && t.grants == s.grants
    requires s.log <= t.log
    requires Quiet(t.log, |s.log|, user) ==> Places(t.seats, t.orgs, user) == Places(s.seats, s.orgs, user)
    ensures Coherent(s, t, user)
  {
    hide Places, QuotaOf, Quiet;
  }

  lemma SeatsOf(s: State)
    requires Inv(s)
    ensures Ordered(s.log) && OneActiveSeat(s.seats) && OneOwner(s.seats)
    ensures forall k :: k in s.seats ==> k.org in s.orgs && k.user in s.users
    ensures forall o, u :: ActiveSeat(s.seats, o, u) ==> ActiveOrg(s.orgs, o)
  {
    hide AccountsFit, InvitationsFit, SessionsFit, AgentsFit, NodesFit, NodesBacked, PlansFit, ReceiptsFit, SetupFits,
      Ordered, HasOwner, OneActiveSeat, OneOwner;
  }

  lemma EvictPlaces(seats: map<Seat, Membership>, orgs: map<Id, Organization>, org: Id, rows: seq<Id>,
      now: Time, user: Id)
    requires user !in rows
    ensures Places(RevokeSeats(seats, org, UserSet(rows), now), orgs, user) == Places(seats, orgs, user)
  {
    SamePlaces(seats, orgs, RevokeSeats(seats, org, UserSet(rows), now), orgs, user);
  }

  lemma EvictCoherent(s: State, org: Id, rows: seq<Id>, now: Time, user: Id)
    requires Ordered(s.log)
    ensures Coherent(s, Evict(s, org, rows, now), user)
  {
    hide Places, Quiet, RevokeSeats, RevokeAgents, RevokeNodes, Coherent;
    var t := Evict(s, org, rows, now);
    ForUsersQuiet(s.log, rows, OrgDraft(0, org, true, now), user);
    assert s.log <= t.log;
    assert t.users == s.users && t.access == s.access && t.plans == s.plans && t.grants == s.grants && t.orgs == s.orgs;
    if user !in rows {
      EvictPlaces(s.seats, s.orgs, org, rows, now, user);
      assert Places(t.seats, t.orgs, user) == Places(s.seats, s.orgs, user);
    }
    CoherentPlaces(s, t, user);
  }

  lemma FoundCoherent(s: State, org: Id, name: string, actor: Id, now: Time, user: Id)
    requires Inv(s) && org !in s.orgs
    ensures Coherent(s, Notify(Found(s, org, name, actor, now), OrgDraft(actor, org, false, now)), user)
  {
    hide Inv, Places, Coherent;
    SeatsOf(s);
    var t := Notify(Found(s, org, name, actor, now), OrgDraft(actor, org, false, now));
    AppendQuiet(s.log, OrgDraft(actor, org, false, now), user);
    assert t.users == s.users && t.access == s.access && t.plans == s.plans && t.grants == s.grants;
    if user != actor {
      SamePlaces(s.seats, s.orgs, t.seats, t.orgs, user);
    }
    CoherentPlaces(s, t, user);
  }

  lemma JoinCoherent(s: State, i: Id, actor: Id, now: Time, user: Id)
    requires i in s.invitations
    ensures var inv := s.invitations[i];
            Coherent(s, Notify(Accept(Enter(s, inv.org, actor, inv.role, now), i, actor, now),
              OrgDraft(actor, inv.org, false, now)), user)
  {
    hide Places, Coherent;
    var inv := s.invitations[i];
    var t := Notify(Accept(Enter(s, inv.org, actor, inv.role, now), i, actor, now),
        OrgDraft(actor, inv.org, false, now));
    AppendQuiet(s.log, OrgDraft(actor, inv.org, false, now), user);
    assert t.users == s.users && t.access == s.access && t.plans == s.plans && t.grants == s.grants;
    if user != actor {
      SamePlaces(s.seats, s.orgs, t.seats, t.orgs, user);
    }
    CoherentPlaces(s, t, user);
  }

  lemma MutateCoherent(s: State, actor: Id, home: Option<Id>, command: Command, now: Time, user: Id)
    requires Inv(s) && Admissible(s, home, command)
    ensures Coherent(s, Mutate(s, actor, home, command, now).After(s), user)
  {
    hide Inv, HasOrg, Open, Coherent, Lists, Ordered, OneActiveSeat, OneOwner;
    SeatsOf(s);
    CoherentRefl(s, user);
    if Mutate(s, actor, home, command, now).Commit? {
      match command
      case Create(org, name) => FoundCoherent(s, org, name, actor, now, user);
      case Join(token) => JoinCoherent(s, InvitationByToken(s.invitations, token).value, actor, now, user);
      case Leave => EvictCoherent(s, home.value, [actor], now, user);
      case Transfer(target) => TransferCoherent(s, home.value, actor, target, now, user);
      case Rename(name, rows) => RenameCoherent(s, home.value, name, rows, now, user);
      case Dissolve(rows) => DissolveCoherent(s, home.value, rows, now, user);
    }
  }

  lemma CoherentRefl(s: State, user: Id)
    requires Inv(s)
    ensures Coherent(s, s, user)
  {
    Preservation.AccountAccess(s);
    hide AccountsFit, InvitationsFit, SeatsFit, SessionsFit, AgentsFit, NodesFit, NodesBacked, PlansFit, ReceiptsFit,
      SetupFits, Ordered, Places, QuotaOf;
    assert user in s.access.Keys <==> user in s.users.Keys;
  }

  lemma TwoQuiet(log: seq<Event>, a: Draft, b: Draft, user: Id)
    ensures log <= Append(Append(log, a), b)
    ensures Quiet(Append(Append(log, a), b), |log|, user) ==> user != a.user && user != b.user
  {
    var all := Append(Append(log, a), b);
    assert all[|log|].body == a && all[|log| + 1].body == b;
  }

  lemma HandoverPlaces(s: State, org: Id, owner: Id, target: Id, now: Time, user: Id)
    requires Seat(org, owner) in s.seats && Seat(org, target) in s.seats && user != owner && user != target
    ensures Places(Handover(s, org, owner, target, now).seats, s.orgs, user) == Places(s.seats, s.orgs, user)
  {
    hide Places;
    SamePlaces(s.seats, s.orgs, Handover(s, org, owner, target, now).seats, s.orgs, user);
  }

  lemma TransferCoherent(s: State, org: Id, owner: Id, target: Id, now: Time, user: Id)
    requires ActiveSeat(s.seats, org, owner) && ActiveSeat(s.seats, org, target)
    ensures Coherent(s, Notify(Notify(Handover(s, org, owner, target, now), OrgDraft(target, org, false, now)),
              OrgDraft(owner, org, false, now)), user)
  {
    hide Places, Coherent, Quiet, Append;
    TwoQuiet(s.log, OrgDraft(target, org, false, now), OrgDraft(owner, org, false, now), user);
    if user != owner && user != target {
      HandoverPlaces(s, org, owner, target, now, user);
    }
    CoherentPlaces(s, Notify(Notify(Handover(s, org, owner, target, now), OrgDraft(target, org, false, now)),
      OrgDraft(owner, org, false, now)), user);
  }

  lemma RenameCoherent(s: State, org: Id, name: string, rows: seq<Id>, now: Time, user: Id)
    requires Ordered(s.log) && org in s.orgs && Lists(rows, Members(s.seats, org))
    ensures Coherent(s, s.(orgs := s.orgs[org := s.orgs[org].(name := name)],
              log := ForUsers(s.log, rows, OrgDraft(0, org, false, now))), user)
  {
    hide Quiet, Places, Coherent;
    ForUsersQuiet(s.log, rows, OrgDraft(0, org, false, now), user);
    if user !in rows {
      assert ActiveSeat(s.seats, org, user) ==> user in Members(s.seats, org);
      SamePlaces(s.seats, s.orgs, s.seats, s.orgs[org := s.orgs[org].(name := name)], user);
    }
    CoherentPlaces(s, s.(orgs := s.orgs[org := s.orgs[org].(name := name)],
      log := ForUsers(s.log, rows, OrgDraft(0, org, false, now))), user);
  }

  lemma DissolveCoherent(s: State, org: Id, rows: seq<Id>, now: Time, user: Id)
    requires Ordered(s.log) && org in s.orgs && Lists(rows, Members(s.seats, org))
    ensures var out := Evict(s, org, rows, now);
            Coherent(s, out.(orgs := out.orgs[org := out.orgs[org].(active := false)]), user)
  {
    hide Quiet, Places, RevokeSeats, RevokeAgents, RevokeNodes, Coherent, Lists;
    var out := Evict(s, org, rows, now);
    var t := out.(orgs := out.orgs[org := out.orgs[org].(active := false)]);
    ForUsersQuiet(s.log, rows, OrgDraft(0, org, true, now), user);
    assert s.log <= t.log;
    assert t.users == s.users && t.access == s.access && t.plans == s.plans && t.grants == s.grants;
    if user !in rows {
      DissolvePlaces(s.seats, s.orgs, org, rows, now, user);
      assert Places(t.seats, t.orgs, user) == Places(s.seats, s.orgs, user);
    }
    CoherentPlaces(s, t, user);
  }

  lemma DissolvePlaces(seats: map<Seat, Membership>, orgs: map<Id, Organization>, org: Id, rows: seq<Id>,
      now: Time, user: Id)
    requires org in orgs && Lists(rows, Members(seats, org)) && user !in rows
    ensures Places(RevokeSeats(seats, org, UserSet(rows), now), orgs[org := orgs[org].(active := false)], user)
         == Places(seats, orgs, user)
  {
    assert ActiveSeat(seats, org, user) ==> user in Members(seats, org);
    SamePlaces(seats, orgs, RevokeSeats(seats, org, UserSet(rows), now),
      orgs[org := orgs[org].(active := false)], user);
  }

  // ---- accounts ----------------------------------------------------------------------

  /** Transactions that leave every cached table alone, whatever they log. */
  lemma CoherentSame(s: State, t: State, user: Id)
    requires Inv(s) && s.log <= t.log
    requires t.users == s.users && t.access == s.access && t.seats == s.seats && t.orgs == s.orgs && t.plans == s.plans
          && t.grants == s.grants
    ensures Coherent(s, t, user)
  {
    CoherentRefl(s, user);
    hide Inv, Places, QuotaOf;
  }

  /** Transactions that rewrite one account's rows: others see nothing, and the account
      itself either reads the same or is told. */
  lemma CoherentAccount(s: State, t: State, who: Id, user: Id)
    requires Inv(s) && s.log <= t.log
    requires t.plans == s.plans && t.grants == s.grants
    requires Places(t.seats, t.orgs, user) == Places(s.seats, s.orgs, user)
          || (user == who && !Quiet(t.log, |s.log|, user))
    requires user != who ==> (user in t.users <==> user in s.users) && (user in t.access <==> user in s.access)
    requires user in s.users ==> user in t.users
    requires user != who && user in s.users && user in s.access ==>
              t.users[user] == s.users[user] && t.access[user] == s.access[user]
    requires (user == who && user in s.users && user in t.access && t.access[user].active
              && Quiet(t.log, |s.log|, user)) ==>
               && user in t.users && user in s.access
               && t.access[user].role == s.access[user].role && t.access[user].active == s.access[user].active
               && t.access[user].webDisabled == s.access[user].webDisabled
               && t.users[user].username == s.users[user].username
               && t.users[user].displayName == s.users[user].displayName
               && t.users[user].avatar == s.users[user].avatar && t.users[user].active == s.users[user].active
    ensures Coherent(s, t, user)
  {
    Preservation.AccountAccess(s);
    hide AccountsFit, InvitationsFit, SeatsFit, SessionsFit, AgentsFit, NodesFit, NodesBacked, PlansFit, ReceiptsFit,
      SetupFits, Ordered, Places, QuotaOf, Quiet;
    assert user in s.access.Keys <==> user in s.users.Keys;
  }

  lemma AddAccountCoherent(s: State, a: NewAccount, role: Role, webDisabled: bool, now: Time, user: Id)
    requires Inv(s) && a.user !in s.users
    ensures Coherent(s, AddAccount(s, a, role, webDisabled, now), user)
  {
    hide Inv, Coherent, Places, Quiet;
    CoherentAccount(s, AddAccount(s, a, role, webDisabled, now), a.user, user);
  }

  lemma AcceptCoherent(s: State, i: Id, a: NewAccount, now: Time, user: Id)
    requires Inv(s) && a.user !in s.users && i in s.invitations
    ensures var inv := s.invitations[i];
            Coherent(s, Accept(Enter(AddAccount(s, a, Member, true, now), inv.org, a.user, inv.role, now), i,
              a.user, now), user)
  {
    hide Inv, Coherent, Places, Quiet;
    var inv := s.invitations[i];
    var t := Accept(Enter(AddAccount(s, a, Member, true, now), inv.org, a.user, inv.role, now), i, a.user, now);
    assert t.log == s.log && t.plans == s.plans && t.grants == s.grants && t.orgs == s.orgs;
    if user != a.user {
      SamePlaces(s.seats, s.orgs, t.seats, t.orgs, user);
      CoherentAccount(s, t, a.user, user);
    } else {
      NewcomerCoherent(s, t, user);
    }
  }

  /** Users who did not exist at the cursor are outside the promise. */
  lemma NewcomerCoherent(s: State, t: State, user: Id)
    requires s.log <= t.log && user !in s.users
    ensures Coherent(s, t, user)
  {
  }

  lemma ProfileQuiet(log: seq<Event>, access: map<Id, Access>, who: Id, now: Time, user: Id)
    ensures var out := ProfileLog(log, access, who, now);
            log <= out && (Quiet(out, |log|, user) <==> !(user == who && who in access && access[who].active))
  {
    AppendQuiet(log, ProfileDraft(who, now), user);
  }

  lemma UpdateAvatarCoherent(s: State, who: Id, avatar: string, now: Time, user: Id)
    requires Inv(s)
    ensures Coherent(s, UpdateAvatar(s, who, avatar, now).After(s), user)
  {
    CoherentRefl(s, user);
    hide Inv, Coherent, Places, Quiet;
    var t := UpdateAvatar(s, who, avatar, now).After(s);
    if UpdateAvatar(s, who, avatar, now).Commit? {
      ProfileQuiet(s.log, s.access, who, now, user);
      CoherentAccount(s, t, who, user);
    }
  }

  lemma AccessLogQuiet(log: seq<Event>, renamed: bool, who: Id, row: Access, next: Change, now: Time, user: Id)
    ensures var out := AccessLog(log, renamed, who, row, next, now);
            && log <= out
            && (user == who && Quiet(out, |log|, user) ==>
                  next.role == row.role && next.active == row.active && !(next.active && renamed))
  {
    var out := AccessLog(log, renamed, who, row, next, now);
    assert |out| > |log| ==> out[|log|].body.user == who;
  }

  lemma ChangeAccessCoherent(s: State, who: Id, next: Change, now: Time, user: Id)
    requires Inv(s) && who in s.users && who in s.access
    ensures Coherent(s, ChangeAccess(s, who, next, now), user)
  {
    hide Inv, Coherent, Places, Quiet, AccessLog;
    AccessLogQuiet(s.log, next.name != s.users[who].displayName, who, s.access[who], next, now, user);
    var t := ChangeAccess(s, who, next, now);
    assert t.plans == s.plans && t.grants == s.grants && t.seats == s.seats && t.orgs == s.orgs;
    CoherentAccount(s, t, who, user);
  }

  lemma SeatLogQuiet(log: seq<Event>, renamed: bool, org: Id, who: Id, role: Role, next: Change, now: Time, user: Id)
    ensures var out := SeatLog(log, renamed, org, who, role, next, now);
            && log <= out
            && (user == who && Quiet(out, |log|, user) ==> next.active && next.role == role && !renamed)
  {
    var out := SeatLog(log, renamed, org, who, role, next, now);
    assert |out| > |log| ==> out[|log|].body.user == who;
  }

  lemma ChangeSeatFrame(s: State, org: Id, who: Id, next: Change, now: Time)
    requires who in s.users && who in s.access && ActiveSeat(s.seats, org, who)
    ensures var t := ChangeSeat(s, org, who, next, now);
            && t.plans == s.plans && t.grants == s.grants && t.access == s.access && t.orgs == s.orgs
            && t.deployment == s.deployment && t.sessions == s.sessions
            && t.nodes == (if next.active then s.nodes else RevokeNodes(s.nodes, org, {who}))
            && t.users == RenamedUsers(s.users, who, next.name, now)
            && t.seats == s.seats[Seat(org, who) := Membership(next.role, next.active, now)]
            && t.log == SeatLog(s.log, next.name != s.users[who].displayName && s.access[who].active, org, who,
              s.seats[Seat(org, who)].role, next, now)
  {
    hide SeatLog, RenamedUsers, RevokeNodes, RevokeAgents;
  }

  lemma ChangeSeatCoherent(s: State, org: Id, who: Id, next: Change, now: Time, user: Id)
    requires Inv(s) && who in s.users && who in s.access && ActiveSeat(s.seats, org, who)
    ensures Coherent(s, ChangeSeat(s, org, who, next, now), user)
  {
    hide Inv, Coherent, Quiet, Places, SeatLog, ChangeSeat;
    SeatLogQuiet(s.log, next.name != s.users[who].displayName && s.access[who].active, org, who,
      s.seats[Seat(org, who)].role, next, now, user);
    ChangeSeatPlaces(s.seats, s.orgs, org, who, next, now, user);
    ChangeSeatFrame(s, org, who, next, now);
    CoherentAccount(s, ChangeSeat(s, org, who, next, now), who, user);
  }

  lemma ChangeSeatPlaces(seats: map<Seat, Membership>, orgs: map<Id, Organization>, org: Id, who: Id, next: Change,
      now: Time, user: Id)
    requires ActiveSeat(seats, org, who)
    ensures var after := seats[Seat(org, who) := Membership(next.role, next.active, now)];
            user != who || (next.active && next.role == seats[Seat(org, who)].role) ==>
              Places(after, orgs, user) == Places(seats, orgs, user)
  {
    if user != who || (next.active && next.role == seats[Seat(org, who)].role) {
      SamePlaces(seats, orgs, seats[Seat(org, who) := Membership(next.role, next.active, now)], orgs, user);
    }
  }

  // ---- plans --------------------------------------------------------------------------

  /** Transactions on plans and entitlements. */
  lemma CoherentQuota(s: State, t: State, user: Id)
    requires Inv(s) && s.log <= t.log
    requires t.users == s.users && t.access == s.access && t.seats == s.seats && t.orgs == s.orgs
    requires user in s.access && s.access[user].active && Quiet(t.log, |s.log|, user) ==>
               QuotaOf(t.plans, t.grants, user) == QuotaOf(s.plans, s.grants, user)
    ensures Coherent(s, t, user)
  {
    CoherentRefl(s, user);
    hide Inv, Places, QuotaOf;
  }

  lemma UpsertPlanCoherent(s: State, key: string, plan: Plan, rows: seq<Id>, now: Time, user: Id)
    requires Inv(s) && Lists(rows, EntitledUsers(s, key))
    ensures Coherent(s, UpsertPlan(s, key, plan, rows, now).After(s), user)
  {
    CoherentRefl(s, user);
    SeatsOf(s);
    hide Inv, Coherent, Quiet, Places, Ordered, OneActiveSeat, OneOwner, QuotaOf;
    if UpsertPlan(s, key, plan, rows, now).Commit? {
      var t := UpsertPlan(s, key, plan, rows, now).state;
      ForUsersQuiet(s.log, rows, PlanDraft(0, now), user);
      if user in s.access && s.access[user].active && user !in rows {
        PlanQuota(s, key, plan.(updatedAt := now), rows, user);
      }
      assert t.users == s.users && t.access == s.access && t.seats == s.seats && t.orgs == s.orgs && s.log <= t.log;
      CoherentQuota(s, t, user);
    }
  }

  lemma PlanQuota(s: State, key: string, plan: Plan, rows: seq<Id>, user: Id)
    requires Lists(rows, EntitledUsers(s, key)) && user in s.access && s.access[user].active && user !in rows
    ensures QuotaOf(s.plans[key := plan], s.grants, user) == QuotaOf(s.plans, s.grants, user)
  {
    assert user !in EntitledUsers(s, key);
    assert user in s.access.Keys && PlanKey(s, user) != key;
  }

  lemma GrantedCoherent(s: State, who: Id, key: string, now: Time, user: Id)
    requires Inv(s)
    ensures Coherent(s, Notify(s.(grants := s.grants[who := Grant(key, now)]), PlanDraft(who, now)), user)
  {
    hide Inv, Coherent, Quiet, Places, Append;
    AppendQuiet(s.log, PlanDraft(who, now), user);
    CoherentQuota(s, Notify(s.(grants := s.grants[who := Grant(key, now)]), PlanDraft(who, now)), user);
  }

  lemma SetGrantCoherent(s: State, who: Id, key: string, now: Time, user: Id)
    requires Inv(s)
    ensures Coherent(s, SetGrant(s, who, key, now).After(s), user)
  {
    hide Inv, Coherent, Notify, PlanKey;
    CoherentRefl(s, user);
    GrantedCoherent(s, who, key, now, user);
  }

  lemma MergeFrame(s: State, plans: seq<PlanRow>, grants: seq<GrantRow>, rows: seq<Id>, now: Time)
    ensures var t := Merge(s, plans, grants, rows, now);
            && t.users == s.users && t.access == s.access && t.seats == s.seats && t.orgs == s.orgs
            && t.log == ForUsers(s.log, rows, PlanDraft(0, now))
  {
    hide Put, ForUsers;
  }

  lemma MergeCoherent(s: State, plans: seq<PlanRow>, grants: seq<GrantRow>, rows: seq<Id>, now: Time, user: Id)
    requires Inv(s) && Lists(rows, ActiveUsers(s))
    ensures Coherent(s, Merge(s, plans, grants, rows, now), user)
  {
    hide Inv, Coherent, Quiet, QuotaOf, Ordered, OneActiveSeat, OneOwner, Merge;
    SeatsOf(s);
    MergeFrame(s, plans, grants, rows, now);
    assert user in s.access && s.access[user].active ==> user in ActiveUsers(s) && user in rows;
    ForUsersQuiet(s.log, rows, PlanDraft(0, now), user);
    CoherentQuota(s, Merge(s, plans, grants, rows, now), user);
  }

  // ---- everything else -----------------------------------------------------------------

  lemma CreateSessionCoherent(s: State, id: Id, who: Id, token: Id, expires: Time, now: Time, user: Id)
    requires Inv(s)
    ensures Coherent(s, Sessions.CreateSession(s, id, who, token, expires, now).After(s), user)
  {
    CoherentRefl(s, user);
    hide Inv, Sessions.DeadSessions, Places, QuotaOf, Quiet;
  }

  lemma TryPasswordCoherent(s: State, key: Request, current: Hash, next: Hash, rows: seq<Id>, now: Time, user: Id)
    requires Inv(s)
    ensures Coherent(s, Sessions.TryCommitPassword(s, key, current, next, rows, now).After(s), user)
  {
    hide Inv, Coherent, Quiet;
    SeatsOf(s);
    ForNodesQuiet(s.log, rows, Sessions.NodeDraft(key.user, 0, now));
    CoherentSame(s, Sessions.TryCommitPassword(s, key, current, next, rows, now).After(s), user);
  }

  lemma RevokeSessionCoherent(s: State, token: Id, now: Time, user: Id)
    requires Inv(s)
    ensures Coherent(s, Sessions.RevokeSession(s, token, now).After(s), user)
  {
    hide Inv, Coherent, Quiet;
    CoherentSame(s, Sessions.RevokeSession(s, token, now).After(s), user);
  }

  lemma RevokeNodeCoherent(s: State, owner: Id, org: Option<Id>, session: Id, node: Id, now: Time, user: Id)
    requires Inv(s)
    ensures Coherent(s, Devices.RevokeNode(s, owner, org, session, node, now).After(s), user)
  {
    hide Inv, Coherent, Quiet;
    CoherentSame(s, Devices.RevokeNode(s, owner, org, session, node, now).After(s), user);
  }

  lemma CreateOwnerCoherent(s: State, a: NewAccount, org: Id, name: string, now: Time, user: Id)
    requires Inv(s)
    ensures Coherent(s, CreateOwner(s, a, org, name, now).After(s), user)
  {
    Preservation.BlankWhenRequired(s);
    CoherentRefl(s, user);
    hide Inv, Coherent;
    var t := CreateOwner(s, a, org, name, now).After(s);
    if CreateOwner(s, a, org, name, now).Commit? {
      NewcomerCoherent(s, t, user);
    }
  }

  lemma OthersCoherent(s: State, t: State, user: Id)
    requires Inv(s) && (Frames.InvitationsOnly(s, t) || Frames.ReceiptsOnly(s, t) || Frames.AgentsOnly(s, t)
              || Frames.NodesOnly(s, t))
    ensures Coherent(s, t, user)
  {
    hide Inv, Coherent;
    CoherentSame(s, t, user);
  }

  lemma QuietCoherent(s: State, a: Action, user: Id)
    requires Inv(s) && (Frames.InvitationAction(a) || a.DoSettle? || a.DoPublish? || a.DoRegisterNode?)
    ensures Coherent(s, Step(s, a), user)
  {
    hide Inv, Coherent, Devices.RegisterNode, Invitations.CreateInvitation, Invitations.RevokeInvitation,
      Invitations.DeleteInvitation, Devices.UpsertAgent, Sessions.SettlePassword, Frames.InvitationsOnly,
      Frames.ReceiptsOnly, Frames.AgentsOnly, Frames.NodesOnly;
    if Frames.InvitationAction(a) {
      Frames.InvitationFrame(s, a);
    } else if a.DoSettle? {
      Frames.SettleFrame(s, a);
    } else if a.DoPublish? {
      Frames.PublishedFrame(s, a);
    } else {
      Frames.RegisterNodeFrame(s, a.owner, a.home, a.session, a.registration, a.now);
    }
    OthersCoherent(s, Step(s, a), user);
  }

  lemma StepCoherent(s: State, a: Action, user: Id)
    requires Inv(s) && Allowed(s, a)
    ensures Coherent(s, Step(s, a), user)
  {
    hide Inv, Coherent, Lists, CreateOwner, UpdateAvatar, Mutate, Sessions.CreateSession, Sessions.RevokeSession,
      Sessions.TryCommitPassword, Devices.RevokeNode, UpsertPlan, SetGrant, Merge, Put, GrantFault, PlanAllowed,
      Admissible, AddAccount, ChangeAccess, ChangeSeat, UsernameTaken, Manages, Administers;
    CoherentRefl(s, user);
    match a
    case DoCreateOwner(account, org, name, now) => CreateOwnerCoherent(s, account, org, name, now, user);
    case DoImport(source) =>
      if Blank(s) {
        NewcomerCoherent(s, Migrated(source), user);
      }
    case DoRegister(account, now) => AddAccountCoherent(s, account, Member, false, now, user);
    case DoCreateMember(actor, account, role, now) => AddAccountCoherent(s, account, role, false, now, user);
    case DoUpdateAccess(who, actor, expected, next, now) =>
      if Execute(s, a).Commit? {
        ChangeAccessCoherent(s, who, next, now, user);
      }
    case DoUpdateAvatar(who, avatar, now) => UpdateAvatarCoherent(s, who, avatar, now, user);
    case DoMutate(actor, home, command, now) => MutateCoherent(s, actor, home, command, now, user);
    case DoUpdateMember(org, who, actor, expected, next, now) =>
      if Execute(s, a).Commit? {
        ChangeSeatCoherent(s, org, who, next, now, user);
      }
    case DoAccept(token, account, now) =>
      if Execute(s, a).Commit? {
        AcceptCoherent(s, InvitationByToken(s.invitations, token).value, account, now, user);
      }
    case DoCreateSession(id, who, token, expires, now) => CreateSessionCoherent(s, id, who, token, expires, now, user);
    case DoRevokeSession(token, now) => RevokeSessionCoherent(s, token, now, user);
    case DoTryPassword(key, current, hash, rows, now) => TryPasswordCoherent(s, key, current, hash, rows, now, user);
    case DoRevokeNode(owner, home, session, node, now) => RevokeNodeCoherent(s, owner, home, session, node, now, user);
    case DoPlan(key, plan, rows, now) => UpsertPlanCoherent(s, key, plan, rows, now, user);
    case DoGrant(who, plan, now) => SetGrantCoherent(s, who, plan, now, user);
    case DoSubscriptions(plans, grants, rows, now) => MergeCoherent(s, plans, grants, rows, now, user);
    case _ => QuietCoherent(s, a, user);
  }

  // ---- over runs ------------------------------------------------------------------------

  /** The log only grows at its end. */
  lemma {:induction false} LogGrows(states: seq<State>, actions: seq<Action>, i: nat, j: nat)
    requires Trace(states, actions) && i <= j < |states|
    ensures states[i].log <= states[j].log
    decreases j - i
  {
    hide Inv, Allowed, Step;
    if i < j {
      LogGrows(states, actions, i, j - 1);
      Preservation.RunKeeps(states, actions, j - 1);
      StepCoherent(states[j - 1], actions[j - 1], 0);
    }
  }

  /** Behind the cursor of an earlier state lies exactly what was appended since. */
  lemma BehindCursor(before: seq<Event>, after: seq<Event>, i: nat)
    requires Ordered(after) && before <= after && i < |after|
    ensures LatestId(before) < after[i].id <==> |before| <= i
  {
  }

  /**
   Main result. Read the log at any state of any run, remember the cursor and a
   user's view. If at a later state the log shows nothing for that user behind the
   cursor and the user has access, the view is still current.
   */
  lemma {:induction false} CacheCoherence(states: seq<State>, actions: seq<Action>, i: nat, j: nat, user: Id)
    requires Trace(states, actions) && i <= j < |states|
    requires user in states[i].users
    requires user in states[j].access && states[j].access[user].active
    requires Silent(states[j].log, LatestId(states[i].log), user)
    ensures user in states[i].access && user in states[j].users && ViewOf(states[i], user) == ViewOf(states[j], user)
    decreases j - i
  {
    hide Inv, Allowed, Step, Places, QuotaOf;
    Preservation.RunKeeps(states, actions, j);
    Preservation.RunKeeps(states, actions, i);
    AccountOf(states[j], user);
    if i == j {
    } else {
      var s, t := states[j - 1], states[j];
      Preservation.RunKeeps(states, actions, j - 1);
      LogGrows(states, actions, i, j - 1);
      StepCoherent(s, actions[j - 1], user);
      SilentSplit(states[i].log, s.log, t.log, user);
      UsersStay(states, actions, i, j - 1, user);
      SameViewIs(s, t, user);
      CacheCoherence(states, actions, i, j - 1, user);
    }
  }

  lemma AccountOf(s: State, user: Id)
    requires Inv(s)
    ensures Ordered(s.log)
    ensures user in s.users <==> user in s.access
  {
    Preservation.AccountAccess(s);
    hide AccountsFit, InvitationsFit, SeatsFit, SessionsFit, AgentsFit, NodesFit, NodesBacked, PlansFit, ReceiptsFit,
      SetupFits, Ordered;
    assert user in s.access.Keys <==> user in s.users.Keys;
  }

  lemma SilentSplit(first: seq<Event>, mid: seq<Event>, last: seq<Event>, user: Id)
    requires Ordered(last) && first <= mid <= last && Silent(last, LatestId(first), user)
    ensures Silent(mid, LatestId(first), user) && Quiet(last, |mid|, user)
  {
    forall i | 0 <= i < |last|
      ensures LatestId(first) < last[i].id <==> |first| <= i
    {
      BehindCursor(first, last, i);
    }
    forall i | 0 <= i < |mid| && LatestId(first) < mid[i].id
      ensures mid[i].body.user != user
    {
      assert last[i] == mid[i];
    }
  }

  /** Accounts are never deleted. */
  lemma {:induction false} UsersStay(states: seq<State>, actions: seq<Action>, i: nat, j: nat, user: Id)
    requires Trace(states, actions) && i <= j < |states| && user in states[i].users
    ensures user in states[j].users
    decreases j - i
  {
    hide Inv, Allowed, Step;
    if i < j {
      UsersStay(states, actions, i, j - 1, user);
      Preservation.RunKeeps(states, actions, j - 1);
      StepCoherent(states[j - 1], actions[j - 1], user);
    }
  }

  /** The log of an access update stays quiet exactly if nothing but the name can have changed
      and no access is left to tell. */
  lemma AccessLogSilent(log: seq<Event>, renamed: bool, user: Id, row: Access, next: Change, now: Time)
    ensures Quiet(AccessLog(log, renamed, user, row, next, now), |log|, user) <==>
              row.role == next.role && row.active == next.active && !(renamed && next.active)
  {
    var named := if renamed && next.active then Append(log, ProfileDraft(user, now)) else log;
    if renamed && next.active {
      assert AccessLog(log, renamed, user, row, next, now)[|log|].body == ProfileDraft(user, now);
    } else if row.role != next.role || row.active != next.active {
      assert AccessLog(log, renamed, user, row, next, now)[|log|].body == PrincipalDraft(user, now);
    }
  }

  /** Why cache coherence asks for access: a committed access update changes what the user reads
      without an event exactly when it renames somebody who has no access before and after, and
      leaves the role alone. */
  lemma SilentExactlyWhenSuspended(s: State, user: Id, actor: Id, expected: Expected, next: Change, now: Time)
    requires UpdateDeploymentMember(s, user, actor, expected, next, now).Commit?
    ensures var t := UpdateDeploymentMember(s, user, actor, expected, next, now).state;
            (ViewOf(t, user) != ViewOf(s, user) && Quiet(t.log, |s.log|, user)) <==>
              && !s.access[user].active && !next.active && next.role == s.access[user].role
              && next.name != s.users[user].displayName
  {
    hide Places, QuotaOf, Administers, AccessVersion, RenameAllowed, AccessLog, RevokeSessionsOf;
    AccessLogSilent(s.log, next.name != s.users[user].displayName, user, s.access[user], next, now);
  }
}
