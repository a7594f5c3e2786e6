/**
 Importing the users of a single-organization Nexus: `importUser` with a default
 organization (internal/storage/auth/account.go). Several platform owners may arrive;
 the organization gets at most one.
 */
module LegacyImport {
  import opened Records
  import opened Schema
  import Accounts
  import Control
  import Entitlements
  import Migration
  import Preservation
  import Profiles

  /** A user with a legacy role; without a membership status of its own the account status decides. */
  datatype LegacyUser = LegacyUser(id: Id, user: User, hash: Hash, role: Role, status: Option<bool>, webDisabled: bool,
                                   updatedAt: Time)

  function Active(item: LegacyUser): bool {
    if item.status.Some? then item.status.value else item.user.active
  }

  predicate ActiveOwner(item: LegacyUser) {
    item.role == Owner && Active(item)
  }

  predicate SomeOwner(items: seq<LegacyUser>) {
    exists i :: 0 <= i < |items| && ActiveOwner(items[i])
  }

  /** The role in the default organization: a second active owner becomes an admin. */
  function SeatRole(item: LegacyUser, seats: map<Seat, Membership>): Role {
    if ActiveOwner(item) && exists k <- seats.Keys :: seats[k].role == Owner && seats[k].active then Admin
    else item.role
  }

  function SeatsOfItems(items: seq<LegacyUser>, org: Id): map<Seat, Membership> {
    if items == [] then map[]
    else
      var item := items[|items| - 1];
      var seats := SeatsOfItems(items[..|items| - 1], org);
      seats[Seat(org, item.id) := Membership(SeatRole(item, seats), Active(item), item.updatedAt)]
  }

  ghost predicate Distinct(items: seq<LegacyUser>) {
    forall i, j :: 0 <= i < j < |items| ==>
      items[i].id != items[j].id && items[i].user.username != items[j].user.username
  }

  /** Every item has its seat, active as the item is. */
  lemma {:induction false} SeatKeys(items: seq<LegacyUser>, org: Id)
    requires Distinct(items)
    ensures forall k :: k in SeatsOfItems(items, org) ==>
              k.org == org && exists i :: 0 <= i < |items| && items[i].id == k.user
    ensures forall i :: 0 <= i < |items| ==> ActiveSeat(SeatsOfItems(items, org), org, items[i].id) == Active(items[i])
    ensures forall i :: 0 <= i < |items| ==> Seat(org, items[i].id) in SeatsOfItems(items, org)
  {
    if items != [] {
      var rest := items[..|items| - 1];
      SeatKeys(rest, org);
      assert forall i :: 0 <= i < |rest| ==> items[i] == rest[i];
    }
  }

  /** Both unique indexes hold after every insert, and the organization has an owner exactly
      when somebody arrived as an active owner. */
  lemma {:induction false} SeatsOfItemsFit(items: seq<LegacyUser>, org: Id)
    requires Distinct(items)
    ensures OneActiveSeat(SeatsOfItems(items, org)) && OneOwner(SeatsOfItems(items, org))
    ensures HasOwner(SeatsOfItems(items, org), org) <==> SomeOwner(items)
  {
    if items != [] {
      var n := |items| - 1;
      SeatsOfItemsFit(items[..n], org);
      SeatKeys(items[..n], org);
      NextSeat(SeatsOfItems(items[..n], org), SeatsOfItems(items, org), org, items[n]);
      hide OneActiveSeat, OneOwner, HasOwner, SeatsOfItems, ActiveOwner;
      MoreOwners(items, n);
    }
  }

  lemma MoreOwners(items: seq<LegacyUser>, n: nat)
    requires n + 1 == |items|
    ensures SomeOwner(items) <==> SomeOwner(items[..n]) || ActiveOwner(items[n])
  {
    hide ActiveOwner;
    if SomeOwner(items[..n]) {
      var i :| 0 <= i < n && ActiveOwner(items[..n][i]);
      assert ActiveOwner(items[i]);
    }
    if i :| 0 <= i < n && ActiveOwner(items[i]) {
      assert ActiveOwner(items[..n][i]);
    }
  }

  /** The first active owner is the one who keeps the organization. */
  lemma {:induction false} FirstOwnerKeeps(items: seq<LegacyUser>, org: Id, i: nat)
    requires Distinct(items) && i < |items| && ActiveOwner(items[i]) && !SomeOwner(items[..i])
    ensures IsOwner(SeatsOfItems(items, org), org, items[i].id)
  {
    var n := |items| - 1;
    NextItem(items, org);
    hide SeatsOfItems, IsOwner, Distinct;
    if i < n {
      assert items[..n][..i] == items[..i];
      FirstOwnerKeeps(items[..n], org, i);
    }
  }

  /** What the last item changes about ownership. */
  lemma NextItem(items: seq<LegacyUser>, org: Id)
    requires Distinct(items) && items != []
    ensures var n := |items| - 1;
            && Distinct(items[..n])
            && (forall u :: IsOwner(SeatsOfItems(items[..n], org), org, u) ==>
                  IsOwner(SeatsOfItems(items, org), org, u))
            && (ActiveOwner(items[n]) && !SomeOwner(items[..n]) ==> IsOwner(SeatsOfItems(items, org), org, items[n].id))
  {
    var n := |items| - 1;
    SeatKeys(items[..n], org);
    SeatsOfItemsFit(items[..n], org);
    NextSeat(SeatsOfItems(items[..n], org), SeatsOfItems(items, org), org, items[n]);
    hide ActiveOwner, SomeOwner, IsOwner, OneOwner, OneActiveSeat, HasOwner;
  }

  lemma NextSeat(before: map<Seat, Membership>, seats: map<Seat, Membership>, org: Id, item: LegacyUser)
    requires OneActiveSeat(before) && OneOwner(before) && Seat(org, item.id) !in before
          && forall k :: k in before ==> k.org == org
    requires seats == before[Seat(org, item.id) := Membership(SeatRole(item, before), Active(item), item.updatedAt)]
    ensures OneActiveSeat(seats) && OneOwner(seats)
    ensures HasOwner(seats, org) <==> HasOwner(before, org) || ActiveOwner(item)
    ensures forall u :: IsOwner(before, org, u) ==> IsOwner(seats, org, u)
    ensures ActiveOwner(item) && !HasOwner(before, org) ==> IsOwner(seats, org, item.id)
  {
    OwnerCounted(before, org);
    forall u
      ensures IsOwner(seats, org, u)
           <==> if u == item.id then ActiveOwner(item) && !HasOwner(before, org) else IsOwner(before, org, u)
    {
    }
    forall o, u | o != org
      ensures !ActiveSeat(seats, o, u)
    {
    }
    hide SeatRole;
    if ActiveOwner(item) && !HasOwner(before, org) {
      assert IsOwner(seats, org, item.id);
    }
    if HasOwner(before, org) {
      var u :| IsOwner(before, org, u);
      assert IsOwner(seats, org, u);
    }
  }

  /** The query that counts owners sees one exactly when there is one. */
  lemma OwnerCounted(seats: map<Seat, Membership>, org: Id)
    requires forall k :: k in seats ==> k.org == org
    ensures (exists k <- seats.Keys :: seats[k].role == Owner && seats[k].active) <==> HasOwner(seats, org)
  {
    if k :| k in seats.Keys && seats[k].role == Owner && seats[k].active {
      assert IsOwner(seats, org, k.user);
    }
  }

  /** The loop itself: each seat is inserted under both indexes. */
  method ImportMembers(items: seq<LegacyUser>, org: Id) returns (seats: map<Seat, Membership>)
    requires Distinct(items)
    ensures seats == SeatsOfItems(items, org)
    ensures OneActiveSeat(seats) && OneOwner(seats)
  {
    seats := map[];
    for i := 0 to |items|
      invariant seats == SeatsOfItems(items[..i], org)
      invariant OneActiveSeat(seats) && OneOwner(seats)
    {
      var item := items[i];
      var role := item.role;
      if role == Owner && Active(item) {
        var owners := set k <- seats.Keys | seats[k].role == Owner && seats[k].active;
        if owners != {} {
          role := Admin;
        }
        assert owners != {} <==> exists k <- seats.Keys :: k in owners;
      }
      assert items[..i + 1][..i] == items[..i];
      SeatsOfItemsFit(items[..i + 1], org);
      seats := seats[Seat(org, item.id) := Membership(role, Active(item), item.updatedAt)];
    }
    assert items[..|items|] == items;
  }

  // ---- when the result is a sound authority ------------------------------------------------------

  function Rows(items: seq<LegacyUser>): map<Id, LegacyUser> {
    if items == [] then map[] else Rows(items[..|items| - 1])[items[|items| - 1].id := items[|items| - 1]]
  }

  function Users(rows: map<Id, LegacyUser>): map<Id, User> {
    map u <- rows :: rows[u].user
  }

  function Subjects(rows: map<Id, LegacyUser>): map<Id, string> {
    map u <- rows :: rows[u].user.username
  }

  function Hashes(rows: map<Id, LegacyUser>): map<Id, Hash> {
    map u <- rows :: rows[u].hash
  }

  function Memberships(rows: map<Id, LegacyUser>): map<Id, Access> {
    map u <- rows :: Access(rows[u].role, Active(rows[u]), rows[u].webDisabled, rows[u].updatedAt)
  }

  /** Everything a legacy import writes into blank tables. */
  function Imported(items: seq<LegacyUser>, org: Id, name: string, plans: seq<Entitlements.PlanRow>,
      grants: seq<Entitlements.GrantRow>, now: Time): State {
    var rows := Rows(items);
    EMPTY.(
      deployment := Some(Deployment(true)),
      users := Users(rows), identities := Subjects(rows), credentials := Hashes(rows), access := Memberships(rows),
      orgs := map[org := Organization(name, true)],
      seats := SeatsOfItems(items, org),
      plans := Put(Accounts.DefaultPlans(map[], now), plans),
      grants := Put(map[], grants))
  }

  lemma {:induction false} RowsOf(items: seq<LegacyUser>)
    requires Distinct(items)
    ensures forall i :: 0 <= i < |items| ==> items[i].id in Rows(items) && Rows(items)[items[i].id] == items[i]
    ensures forall u :: u in Rows(items) ==> exists i :: 0 <= i < |items| && items[i].id == u
    ensures forall u, v :: (u in Rows(items) && v in Rows(items)
                            && Rows(items)[u].user.username == Rows(items)[v].user.username) ==> u == v
  {
    if items != [] {
      var rest := items[..|items| - 1];
      RowsOf(rest);
      assert forall i :: 0 <= i < |rest| ==> items[i] == rest[i];
    }
  }

  /** Each seat is as its item has it, except that only the first active owner stays owner. */
  lemma {:induction false} SeatArrives(items: seq<LegacyUser>, org: Id, i: nat)
    requires Distinct(items) && i < |items|
    ensures var item := items[i];
            var role := if ActiveOwner(item) && SomeOwner(items[..i]) then Admin else item.role;
            && Seat(org, item.id) in SeatsOfItems(items, org)
            && SeatsOfItems(items, org)[Seat(org, item.id)] == Membership(role, Active(item), item.updatedAt)
  {
    var n := |items| - 1;
    if i < n {
      assert items[..n][..i] == items[..i];
      SeatArrives(items[..n], org, i);
    } else {
      var seats := SeatsOfItems(items[..n], org);
      SeatsOfItemsFit(items[..n], org);
      SeatKeys(items[..n], org);
      OwnerCounted(seats, org);
      hide ActiveOwner, SomeOwner, HasOwner, OneOwner, OneActiveSeat;
    }
  }

  /** Every user arrives with exactly the account, hash, platform access and seat of its item, and
      nobody else does. */
  lemma UserArrives(items: seq<LegacyUser>, org: Id, name: string, plans: seq<Entitlements.PlanRow>,
      grants: seq<Entitlements.GrantRow>, now: Time, i: nat)
    requires Distinct(items) && i < |items|
    ensures var s, item := Imported(items, org, name, plans, grants, now), items[i];
            && item.id in s.users && s.users[item.id] == item.user
            && item.id in s.identities && s.identities[item.id] == item.user.username
            && item.id in s.credentials && s.credentials[item.id] == item.hash
            && item.id in s.access
            && s.access[item.id] == Access(item.role, Active(item), item.webDisabled, item.updatedAt)
            && Seat(org, item.id) in s.seats
            && s.seats[Seat(org, item.id)].active == Active(item)
            && s.seats[Seat(org, item.id)].role
               == if ActiveOwner(item) && SomeOwner(items[..i]) then Admin else item.role
    ensures forall u :: u in Imported(items, org, name, plans, grants, now).users ==>
              exists k :: 0 <= k < |items| && items[k].id == u
  {
    RowsOf(items);
    SeatArrives(items, org, i);
    hide Rows, SeatsOfItems, ActiveOwner, SomeOwner, Active, Distinct, Put, Accounts.DefaultPlans;
  }

  /**
   Main result. The imported state is a sound authority exactly when some user arrives as an
   active owner; the import itself does not ask, so a source without one leaves an organization
   nobody can manage.
   */
  lemma SoundWithAnOwner(items: seq<LegacyUser>, org: Id, name: string, plans: seq<Entitlements.PlanRow>,
      grants: seq<Entitlements.GrantRow>, now: Time)
    requires Distinct(items) && forall p <- plans :: Entitlements.PlanAllowed(p.key, p.value)
    requires PlansFit(Put(Accounts.DefaultPlans(map[], now), plans).Keys, Put(map[], grants), Rows(items).Keys)
    ensures Inv(Imported(items, org, name, plans, grants, now)) <==> SomeOwner(items)
  {
    DefaultFree(plans, now);
    hide Put, Rows, SeatsOfItems, FreePlan, PlansFit, Accounts.DefaultPlans, SomeOwner, Inv, Active, Distinct, Users,
      Subjects, Hashes, Memberships;
    SoundState(items, org, Imported(items, org, name, plans, grants, now));
  }

  lemma SoundState(items: seq<LegacyUser>, org: Id, s: State)
    requires Distinct(items)
    requires AccountColumns(Rows(items), s)
    requires s.seats == SeatsOfItems(items, org) && s.orgs.Keys == {org} && s.orgs[org].active
    requires FreePlan(s.plans) && PlansFit(s.plans.Keys, s.grants, Rows(items).Keys)
    requires s.invitations == map[] && s.sessions == map[] && s.agents == map[] && s.nodes == map[]
          && s.receipts == map[] && s.log == [] && s.deployment.Some?
    ensures Inv(s) <==> SomeOwner(items)
  {
    AccountsImported(items, s);
    assert s.users.Keys == s.access.Keys;
    SeatsImported(items, org, s);
    hide AccountsFit, SeatsFit, Rows, SeatsOfItems, PlatformOwned, FreePlan, PlansFit, SomeOwner, AccountColumns, Inv;
    OtherTables(s);
  }

  /** The tables an import leaves empty fit by themselves. */
  lemma OtherTables(s: State)
    requires s.invitations == map[] && s.sessions == map[] && s.agents == map[] && s.nodes == map[]
          && s.receipts == map[] && s.log == [] && s.deployment.Some?
    requires AccountsFit(s.users, s.identities, s.credentials.Keys, s.access.Keys)
          && PlansFit(s.plans.Keys, s.grants, s.access.Keys) && FreePlan(s.plans)
    ensures Inv(s) <==> SeatsFit(s.seats, s.orgs, s.users.Keys) && PlatformOwned(s.access)
  {
    hide AccountsFit, SeatsFit, PlatformOwned, FreePlan, PlansFit;
  }

  lemma DefaultFree(plans: seq<Entitlements.PlanRow>, now: Time)
    requires forall p <- plans :: Entitlements.PlanAllowed(p.key, p.value)
    ensures FreePlan(Put(Accounts.DefaultPlans(map[], now), plans))
  {
    Preservation.PutPlansKeep(Accounts.DefaultPlans(map[], now), plans);
  }

  ghost predicate AccountColumns(rows: map<Id, LegacyUser>, s: State) {
    s.users == Users(rows) && s.identities == Subjects(rows) && s.credentials == Hashes(rows)
      && s.access == Memberships(rows)
  }

  lemma AccountsImported(items: seq<LegacyUser>, s: State)
    requires Distinct(items)
    requires AccountColumns(Rows(items), s)
    ensures AccountsFit(s.users, s.identities, s.credentials.Keys, s.access.Keys)
         && s.users.Keys == Rows(items).Keys == s.access.Keys
    ensures PlatformOwned(s.access) <==> SomeOwner(items)
  {
    RowsOf(items);
    hide Rows;
    var rows := Rows(items);
    assert s.users.Keys == rows.Keys && s.identities.Keys == rows.Keys && s.credentials.Keys == rows.Keys
      && s.access.Keys == rows.Keys;
    if SomeOwner(items) {
      var i :| 0 <= i < |items| && ActiveOwner(items[i]);
      assert items[i].id in s.access;
    }
  }

  lemma SeatsImported(items: seq<LegacyUser>, org: Id, s: State)
    requires Distinct(items) && s.seats == SeatsOfItems(items, org) && s.users.Keys == Rows(items).Keys
    requires s.orgs.Keys == {org} && s.orgs[org].active
    ensures SeatsFit(s.seats, s.orgs, s.users.Keys) <==> SomeOwner(items)
  {
    SeatsOfItemsFit(items, org);
    SeatUsers(items, org);
    hide Rows, SeatsOfItems, OneActiveSeat, OneOwner, HasOwner, SomeOwner;
    assert org in s.orgs.Keys;
    assert ActiveOrg(s.orgs, org);
    assert forall o :: ActiveOrg(s.orgs, o) ==> o in s.orgs.Keys;
  }

  lemma SeatUsers(items: seq<LegacyUser>, org: Id)
    requires Distinct(items)
    ensures forall k :: k in SeatsOfItems(items, org) ==> k.org == org && k.user in Rows(items).Keys
  {
    SeatKeys(items, org);
    RowsOf(items);
    hide SeatsOfItems, Rows;
  }

  // ---- whether the result can ever be migrated ---------------------------------------------------

  predicate ItemsFit(items: seq<LegacyUser>) {
    forall i :: 0 <= i < |items| ==> Control.ProfileFits(items[i].user)
  }

  lemma NamesOfItems(items: seq<LegacyUser>)
    requires Distinct(items)
    ensures Control.NamesFit(Users(Rows(items))) <==> ItemsFit(items)
  {
    RowsOf(items);
    hide Control.ProfileFits, Rows;
    var users := Users(Rows(items));
    if Control.NamesFit(users) {
      forall i | 0 <= i < |items|
        ensures Control.ProfileFits(items[i].user)
      {
        assert items[i].id in users.Keys;
      }
    }
    if ItemsFit(items) {
      forall u | u in users.Keys
        ensures Control.ProfileFits(users[u])
      {
        var i :| 0 <= i < |items| && items[i].id == u;
      }
    }
  }

  lemma PlansOfImport(plans: seq<Entitlements.PlanRow>, now: Time)
    requires forall p <- plans :: Entitlements.PlanAllowed(p.key, p.value)
    ensures Control.PlansAllowed(Put(Accounts.DefaultPlans(map[], now), plans))
  {
    hide Entitlements.PlanAllowed, Accounts.DefaultPlans;
    assert Control.PlansAllowed(map[]);
    hide Control.PlansAllowed;
    Profiles.DefaultsAllowed(map[], now);
    Profiles.PutAllowed(Accounts.DefaultPlans(map[], now), plans);
  }

  /** The scan looks for an owner in the account join; there is one only if one arrived. */
  lemma AcceptedOwner(items: seq<LegacyUser>, s: State)
    requires Distinct(items) && AccountColumns(Rows(items), s) && Migration.AccountsAccepted(s)
    ensures SomeOwner(items)
  {
    AccountsImported(items, s);
    hide Rows, SomeOwner;
    var u :| u in Migration.AccountsOf(s).Keys && Migration.AccountsOf(s)[u].access.role == Owner
        && Migration.AccountsOf(s)[u].access.active;
    assert u in s.access && s.access[u].active && s.access[u].role == Owner;
  }

  /**
   Main result. The copied names are not checked when they arrive: an authority born this
   way is accepted by a later migration exactly when somebody arrived as an active owner and every
   copied username and display name fits.
   */
  lemma AcceptedWithFittingNames(items: seq<LegacyUser>, org: Id, name: string, plans: seq<Entitlements.PlanRow>,
      grants: seq<Entitlements.GrantRow>, now: Time)
    requires Distinct(items) && forall p <- plans :: Entitlements.PlanAllowed(p.key, p.value)
    requires PlansFit(Put(Accounts.DefaultPlans(map[], now), plans).Keys, Put(map[], grants), Rows(items).Keys)
    ensures Migration.SourceAccepted(Imported(items, org, name, plans, grants, now))
         <==> SomeOwner(items) && ItemsFit(items)
  {
    hide Inv, Put, Rows, SeatsOfItems, PlansFit, Accounts.DefaultPlans, SomeOwner, ItemsFit, Control.PlansAllowed,
      Entitlements.PlanAllowed, Distinct, Users, Subjects, Hashes, Memberships,
      Migration.SourceAccepted;
    SoundWithAnOwner(items, org, name, plans, grants, now);
    PlansOfImport(plans, now);
    AcceptedState(items, Imported(items, org, name, plans, grants, now));
  }

  lemma AcceptedState(items: seq<LegacyUser>, s: State)
    requires Distinct(items) && AccountColumns(Rows(items), s) && Control.PlansAllowed(s.plans) && s.deployment.Some?
    requires Inv(s) <==> SomeOwner(items)
    ensures Migration.SourceAccepted(s) <==> SomeOwner(items) && ItemsFit(items)
  {
    hide Inv, Rows, SomeOwner, ItemsFit, Control.NamesFit, Control.PlansAllowed, Distinct, Users, Subjects, Hashes,
      Memberships, Migration.AccountsAccepted;
    NamesOfItems(items);
    if SomeOwner(items) {
      Migration.ReachableAccepted(s);
    } else if Migration.SourceAccepted(s) {
      AcceptedOwner(items, s);
    }
  }

  /** The input: one owner with a capital letter for a username makes a sound authority that no
      migration accepts. */
  lemma CapitalOwnerIsStuck(secret: Hash, org: Id, name: string, now: Time)
    ensures var owner := LegacyUser(1, User("A", "A", "", true, now), secret, Owner, None, false, now);
            var s := Imported([owner], org, name, [], [], now);
            Inv(s) && !Migration.SourceAccepted(s)
  {
    hide Inv, Migration.SourceAccepted, Imported;
    var items := [LegacyUser(1, User("A", "A", "", true, now), secret, Owner, None, false, now)];
    assert ActiveOwner(items[0]) && !Control.ProfileFits(items[0].user);
    var none: map<Id, Grant> := map[];
    assert Put(none, []) == none;
    SoundWithAnOwner(items, org, name, [], [], now);
    AcceptedWithFittingNames(items, org, name, [], [], now);
  }
}
