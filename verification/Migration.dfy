/**
 Moving the authority: what the scan of a source accepts, which rows an import inserts, and
 why importing a scan gives back the source. Sources: internal/service/auth/import.go,
 internal/service/auth/import_organization.go, `importDeployment` in
 internal/storage/auth/account.go.
 */
module Migration {
  import opened Records
  import opened InvalidationLog
  import opened Schema
  import opened Control
  import Coherence
  import Entitlements
  import Preservation
  import Profiles
  import Texts

  /** One row of the account join; `subject` is the identity's own copy of the username. */
  datatype Login = Login(user: User, subject: string, hash: Hash, access: Access)

  datatype Snapshot = Snapshot(
    deployment: Deployment,
    orgs: seq<Row<Id, Organization>>, seats: seq<Row<Seat, Membership>>, invitations: seq<Row<Id, Invitation>>,
    accounts: seq<Row<Id, Login>>, agents: seq<Row<Id, Agent>>,
    plans: seq<Row<string, Plan>>, grants: seq<Row<Id, Grant>>, log: seq<Event>,
    issuedSessions: set<Id>, issuedInvitations: set<Id>)

  // ---- rows and tables ------------------------------------------------------------------

  /** `rows` is what a SELECT over the whole table may return, in whatever order. */
  ghost predicate Tabulates<K(!new), V>(rows: seq<Row<K, V>>, table: map<K, V>) {
    && (forall i, j :: 0 <= i < j < |rows| ==> rows[i].key != rows[j].key)
    && (forall i :: 0 <= i < |rows| ==> rows[i].key in table && table[rows[i].key] == rows[i].value)
    && (forall k :: k in table ==> exists i :: 0 <= i < |rows| && rows[i].key == k)
  }

  /** Inserting row by row leaves exactly the keys of the rows. */
  lemma {:induction false} PutKeys<K, V>(rows: seq<Row<K, V>>, k: K)
    ensures k in Put(map[], rows) <==> exists i :: 0 <= i < |rows| && rows[i].key == k
  {
    if rows != [] {
      PutKeys(rows[..|rows| - 1], k);
    }
  }

  lemma {:induction false} PutPart<K(!new), V>(rows: seq<Row<K, V>>, table: map<K, V>, n: nat)
    requires Tabulates(rows, table) && n <= |rows|
    ensures var part := Put(map[], rows[..n]);
            && (forall k :: k in part ==> k in table && part[k] == table[k])
            && (n < |rows| ==> rows[n].key !in part)
            && (n == |rows| ==> part == table)
  {
    if n > 0 {
      PutPart(rows, table, n - 1);
      assert rows[..n][..n - 1] == rows[..n - 1];
    }
    if n < |rows| {
      PutKeys(rows[..n], rows[n].key);
    } else {
      forall k | k in table
        ensures k in Put(map[], rows[..n])
      {
        PutKeys(rows[..n], k);
        assert rows[..n] == rows;
      }
    }
  }

  /** Every row can be inserted: its key is new and the table's constraints admit it. */
  ghost predicate Insertable<K(!new), V(!new)>(rows: seq<Row<K, V>>, admits: (Row<K, V>, map<K, V>) -> bool) {
    forall i :: 0 <= i < |rows| ==> rows[i].key !in Put(map[], rows[..i]) && admits(rows[i], Put(map[], rows[..i]))
  }

  /** The insert loop of an import; it stops at the first violated constraint. */
  method InsertAll<K(!new, ==), V(!new)>(rows: seq<Row<K, V>>, admits: (Row<K, V>, map<K, V>) -> bool)
      returns (table: map<K, V>, ok: bool)
    ensures ok <==> Insertable(rows, admits)
    ensures ok ==> table == Put(map[], rows)
  {
    table, ok := map[], true;
    var i := 0;
    while i < |rows|
      invariant 0 <= i <= |rows|
      invariant table == Put(map[], rows[..i])
      invariant Insertable(rows[..i], admits)
    {
      InsertableNext(rows, admits, i);
      if rows[i].key in table || !admits(rows[i], table) {
        return table, false;
      }
      table := table[rows[i].key := rows[i].value];
      i := i + 1;
    }
    assert rows[..i] == rows;
  }

  lemma InsertableNext<K(!new), V(!new)>(rows: seq<Row<K, V>>, admits: (Row<K, V>, map<K, V>) -> bool, i: nat)
    requires i < |rows| && Insertable(rows[..i], admits)
    ensures Insertable(rows[..i + 1], admits)
         <==> rows[i].key !in Put(map[], rows[..i]) && admits(rows[i], Put(map[], rows[..i]))
    ensures Insertable(rows, admits) ==> Insertable(rows[..i + 1], admits)
    ensures Put(map[], rows[..i + 1]) == Put(map[], rows[..i])[rows[i].key := rows[i].value]
  {
    var next := rows[..i + 1];
    assert next[..i] == rows[..i];
    assert forall k :: 0 <= k <= i ==> next[..k] == rows[..k];
    assert forall k :: 0 <= k < i ==> rows[..i][..k] == rows[..k];
  }

  // ---- the constraints an import meets -----------------------------------------------------

  function AnyRow<K(!new), V(!new)>(): (Row<K, V>, map<K, V>) -> bool {
    (row: Row<K, V>, table: map<K, V>) => true
  }

  /** `UNIQUE (username)` and `UNIQUE (provider, subject)`. */
  function AccountAdmits(): (Row<Id, Login>, map<Id, Login>) -> bool {
    (row: Row<Id, Login>, table: map<Id, Login>) =>
      forall u <- table.Keys :: table[u].user.username != row.value.user.username
  }

  /** Foreign keys and the two partial unique indexes. */
  function SeatAdmits(orgs: set<Id>, users: set<Id>): (Row<Seat, Membership>, map<Seat, Membership>) -> bool {
    (row: Row<Seat, Membership>, table: map<Seat, Membership>) =>
      && row.key.org in orgs && row.key.user in users
      && (row.value.active ==> forall k <- table.Keys :: table[k].active ==>
            && k.user != row.key.user
            && (k.org == row.key.org && row.value.role == Owner ==> table[k].role != Owner))
  }

  /** Foreign keys, CHECKs and `UNIQUE (token_hash)`. */
  function InvitationAdmits(orgs: set<Id>, users: set<Id>): (Row<Id, Invitation>, map<Id, Invitation>) -> bool {
    (row: Row<Id, Invitation>, table: map<Id, Invitation>) =>
      InvitationFits(row.value, orgs, users) && forall i <- table.Keys :: table[i].token != row.value.token
  }

  function AgentAdmits(orgs: set<Id>, users: set<Id>): (Row<Id, Agent>, map<Id, Agent>) -> bool {
    (row: Row<Id, Agent>, table: map<Id, Agent>) =>
      row.value.org in orgs && row.value.owner in users && forall a <- table.Keys :: !SameSource(table[a], row.value)
  }

  function GrantAdmits(access: set<Id>, plans: set<string>): (Row<Id, Grant>, map<Id, Grant>) -> bool {
    (row: Row<Id, Grant>, table: map<Id, Grant>) => row.key in access && row.value.plan in plans
  }

  ghost predicate Importable(snap: Snapshot) {
    var orgs := Put(map[], snap.orgs).Keys;
    var users := Put(map[], snap.accounts).Keys;
    && Insertable(snap.orgs, AnyRow()) && Insertable(snap.accounts, AccountAdmits())
    && Insertable(snap.seats, SeatAdmits(orgs, users))
    && Insertable(snap.invitations, InvitationAdmits(orgs, users))
    && Insertable(snap.agents, AgentAdmits(orgs, users))
    && Ordered(snap.log)
    && Insertable(snap.grants, GrantAdmits(users, Put(map[], snap.plans).Keys))
  }

  function UserColumn(accounts: map<Id, Login>): map<Id, User> {
    map u <- accounts :: accounts[u].user
  }

  /** `importUser` writes the username as the identity's subject. */
  function SubjectColumn(accounts: map<Id, Login>): map<Id, string> {
    map u <- accounts :: accounts[u].user.username
  }

  function HashColumn(accounts: map<Id, Login>): map<Id, Hash> {
    map u <- accounts :: accounts[u].hash
  }

  function AccessColumn(accounts: map<Id, Login>): map<Id, Access> {
    map u <- accounts :: accounts[u].access
  }

  /** The target after the import. */
  function Built(snap: Snapshot): State {
    var accounts := Put(map[], snap.accounts);
    EMPTY.(
      deployment := Some(snap.deployment),
      users := UserColumn(accounts), identities := SubjectColumn(accounts), credentials := HashColumn(accounts),
      access := AccessColumn(accounts),
      orgs := Put(map[], snap.orgs), seats := Put(map[], snap.seats), invitations := Put(map[], snap.invitations),
      agents := Put(map[], snap.agents), plans := Put(map[], snap.plans), grants := Put(map[], snap.grants),
      log := snap.log, issuedSessions := snap.issuedSessions, issuedInvitations := snap.issuedInvitations)
  }

  /** The count over the tables that must be empty. */
  predicate Untouched(t: State) {
    && t.deployment.None? && t.users == map[] && t.identities == map[] && t.credentials == map[] && t.access == map[]
    && t.sessions == map[] && t.receipts == map[] && t.log == []
    && t.agents == map[] && t.plans == map[] && t.grants == map[]
  }

  /** `importDeployment`: one insert loop per table, each under its constraints and the
      rows inserted before it; the first violation rolls everything back. */
  method ImportControlDeployment(target: State, snap: Snapshot) returns (tx: Tx)
    ensures tx == if !Untouched(target) then Abort(AlreadySetup)
                  else if Importable(snap) then Commit(Built(snap))
                  else Abort(Constraint)
  {
    hide Insertable, Put, Ordered;
    if !Untouched(target) {
      return Abort(AlreadySetup);
    }
    var orgs, ok := InsertAll(snap.orgs, AnyRow());
    if !ok {
      return Abort(Constraint);
    }
    var plans := UpsertAll(snap.plans);
    var accounts: map<Id, Login>;
    accounts, ok := InsertAll(snap.accounts, AccountAdmits());
    if !ok {
      return Abort(Constraint);
    }
    var seats: map<Seat, Membership>;
    seats, ok := InsertAll(snap.seats, SeatAdmits(orgs.Keys, accounts.Keys));
    if !ok {
      return Abort(Constraint);
    }
    var invitations: map<Id, Invitation>;
    invitations, ok := InsertAll(snap.invitations, InvitationAdmits(orgs.Keys, accounts.Keys));
    if !ok {
      return Abort(Constraint);
    }
    var agents: map<Id, Agent>;
    agents, ok := InsertAll(snap.agents, AgentAdmits(orgs.Keys, accounts.Keys));
    if !ok {
      return Abort(Constraint);
    }
    ok := InsertEvents(snap.log);
    if !ok {
      return Abort(Constraint);
    }
    var grants: map<Id, Grant>;
    grants, ok := InsertAll(snap.grants, GrantAdmits(accounts.Keys, plans.Keys));
    if !ok {
      return Abort(Constraint);
    }
    return Commit(EMPTY.(
      deployment := Some(snap.deployment),
      users := UserColumn(accounts), identities := SubjectColumn(accounts), credentials := HashColumn(accounts),
      access := AccessColumn(accounts),
      orgs := orgs, seats := seats, invitations := invitations, agents := agents, plans := plans, grants := grants,
      log := snap.log, issuedSessions := snap.issuedSessions, issuedInvitations := snap.issuedInvitations));
  }

  method UpsertAll<K(==), V>(rows: seq<Row<K, V>>) returns (table: map<K, V>)
    ensures table == Put(map[], rows)
  {
    table := map[];
    for i := 0 to |rows|
      invariant table == Put(map[], rows[..i])
    {
      assert rows[..i + 1][..i] == rows[..i];
      table := table[rows[i].key := rows[i].value];
    }
    assert rows[..|rows|] == rows;
  }

  /** The events come in id order; the primary key refuses one that does not move forward. */
  method InsertEvents(events: seq<Event>) returns (ok: bool)
    ensures ok <==> Ordered(events)
  {
    for i := 0 to |events|
      invariant Ordered(events[..i])
    {
      if events[i].id <= LatestId(events[..i]) {
        return false;
      }
    }
    assert events[..|events|] == events;
    return true;
  }

  // ---- a scan of a source --------------------------------------------------------------------

  /** The four-table account join. */
  function AccountsOf(s: State): map<Id, Login> {
    map u <- s.users | u in s.identities && u in s.credentials && u in s.access ::
      Login(s.users[u], s.identities[u], s.credentials[u], s.access[u])
  }

  /** `snap` is what the queries of a scan return, each in some order. */
  ghost predicate Scans(s: State, snap: Snapshot) {
    && s.deployment == Some(snap.deployment)
    && Tabulates(snap.orgs, s.orgs) && Tabulates(snap.seats, s.seats) && Tabulates(snap.invitations, s.invitations)
    && Tabulates(snap.accounts, AccountsOf(s)) && Tabulates(snap.agents, s.agents)
    && Tabulates(snap.plans, s.plans) && Tabulates(snap.grants, s.grants)
    && snap.log == s.log && snap.issuedSessions == s.issuedSessions && snap.issuedInvitations == s.issuedInvitations
  }

  lemma AllAccounts(s: State)
    requires Inv(s)
    ensures AccountsOf(s).Keys == s.users.Keys == s.access.Keys == s.credentials.Keys == s.identities.Keys
    ensures forall u, v :: u in s.users && v in s.users && s.users[u].username == s.users[v].username ==> u == v
    ensures forall u :: u in s.users ==> s.identities[u] == s.users[u].username
  {
    Preservation.AccountAccess(s);
    hide InvitationsFit, SeatsFit, SessionsFit, AgentsFit, NodesFit, NodesBacked, PlansFit, ReceiptsFit,
      SetupFits, Ordered;
  }

  lemma LoginNames(s: State)
    requires Inv(s)
    ensures forall u, v :: (u in AccountsOf(s) && v in AccountsOf(s)
                            && AccountsOf(s)[u].user.username == AccountsOf(s)[v].user.username) ==> u == v
  {
    AllAccounts(s);
    hide Inv;
  }

  lemma OrgRows(s: State, snap: Snapshot)
    requires Scans(s, snap)
    ensures Insertable(snap.orgs, AnyRow()) && Put(map[], snap.orgs) == s.orgs
    ensures Put(map[], snap.plans) == s.plans
  {
    forall i | 0 <= i < |snap.orgs|
      ensures snap.orgs[i].key !in Put(map[], snap.orgs[..i])
    {
      PutPart(snap.orgs, s.orgs, i);
    }
    Whole(snap.orgs, s.orgs);
    Whole(snap.plans, s.plans);
  }

  lemma Whole<K(!new), V>(rows: seq<Row<K, V>>, table: map<K, V>)
    requires Tabulates(rows, table)
    ensures Put(map[], rows) == table
  {
    PutPart(rows, table, |rows|);
    assert rows[..|rows|] == rows;
  }

  lemma AccountRowsInsert(rows: seq<Row<Id, Login>>, table: map<Id, Login>)
    requires Tabulates(rows, table)
    requires forall u, v :: u in table && v in table && table[u].user.username == table[v].user.username ==> u == v
    ensures Insertable(rows, AccountAdmits()) && Put(map[], rows) == table
  {
    forall i | 0 <= i < |rows|
      ensures rows[i].key !in Put(map[], rows[..i]) && AccountAdmits()(rows[i], Put(map[], rows[..i]))
    {
      PutPart(rows, table, i);
    }
    Whole(rows, table);
  }

  /** An active row fits beside the active rows already there. */
  lemma SeatBeside(seats: map<Seat, Membership>, part: map<Seat, Membership>, row: Row<Seat, Membership>)
    requires OneActiveSeat(seats) && OneOwner(seats)
    requires row.key in seats && seats[row.key] == row.value && row.key !in part
    requires forall k :: k in part ==> k in seats && part[k] == seats[k]
    ensures row.value.active ==> forall k <- part.Keys :: part[k].active ==>
              && k.user != row.key.user
              && (k.org == row.key.org && row.value.role == Owner ==> part[k].role != Owner)
  {
    forall k | k in part && part[k].active && row.value.active
      ensures k.user != row.key.user && (k.org == row.key.org && row.value.role == Owner ==> part[k].role != Owner)
    {
      assert ActiveSeat(seats, k.org, k.user) && ActiveSeat(seats, row.key.org, row.key.user);
      assert k.org == row.key.org && row.value.role == Owner && part[k].role == Owner ==>
        IsOwner(seats, k.org, k.user) && IsOwner(seats, k.org, row.key.user);
    }
  }

  lemma SeatRowsInsert(rows: seq<Row<Seat, Membership>>, seats: map<Seat, Membership>, orgs: set<Id>, users: set<Id>)
    requires Tabulates(rows, seats) && OneActiveSeat(seats) && OneOwner(seats)
    requires forall k :: k in seats ==> k.org in orgs && k.user in users
    ensures Insertable(rows, SeatAdmits(orgs, users)) && Put(map[], rows) == seats
  {
    hide OneActiveSeat, OneOwner;
    forall i | 0 <= i < |rows|
      ensures rows[i].key !in Put(map[], rows[..i]) && SeatAdmits(orgs, users)(rows[i], Put(map[], rows[..i]))
    {
      PutPart(rows, seats, i);
      SeatBeside(seats, Put(map[], rows[..i]), rows[i]);
    }
    Whole(rows, seats);
  }

  lemma InvitationRowsInsert(s: State, rows: seq<Row<Id, Invitation>>)
    requires Inv(s) && Tabulates(rows, s.invitations)
    ensures Insertable(rows, InvitationAdmits(s.orgs.Keys, s.users.Keys)) && Put(map[], rows) == s.invitations
  {
    hide AccountsFit, SeatsFit, SessionsFit, AgentsFit, NodesFit, NodesBacked, PlansFit, ReceiptsFit, SetupFits,
      Ordered, InvitationFits;
    forall i | 0 <= i < |rows|
      ensures rows[i].key !in Put(map[], rows[..i])
           && InvitationAdmits(s.orgs.Keys, s.users.Keys)(rows[i], Put(map[], rows[..i]))
    {
      PutPart(rows, s.invitations, i);
    }
    Whole(rows, s.invitations);
  }

  lemma AgentRowsInsert(s: State, rows: seq<Row<Id, Agent>>)
    requires Inv(s) && Tabulates(rows, s.agents)
    ensures Insertable(rows, AgentAdmits(s.orgs.Keys, s.users.Keys)) && Put(map[], rows) == s.agents
  {
    hide AccountsFit, SeatsFit, SessionsFit, InvitationsFit, NodesFit, NodesBacked, PlansFit, ReceiptsFit, SetupFits,
      Ordered, ActiveSeat, SameSource;
    forall i | 0 <= i < |rows|
      ensures rows[i].key !in Put(map[], rows[..i])
           && AgentAdmits(s.orgs.Keys, s.users.Keys)(rows[i], Put(map[], rows[..i]))
    {
      PutPart(rows, s.agents, i);
    }
    Whole(rows, s.agents);
  }

  lemma GrantRowsInsert(s: State, rows: seq<Row<Id, Grant>>)
    requires Inv(s) && Tabulates(rows, s.grants)
    ensures Insertable(rows, GrantAdmits(s.access.Keys, s.plans.Keys)) && Put(map[], rows) == s.grants
  {
    hide AccountsFit, SeatsFit, SessionsFit, InvitationsFit, AgentsFit, NodesFit, NodesBacked, ReceiptsFit,
      SetupFits, Ordered;
    forall i | 0 <= i < |rows|
      ensures rows[i].key !in Put(map[], rows[..i])
           && GrantAdmits(s.access.Keys, s.plans.Keys)(rows[i], Put(map[], rows[..i]))
    {
      PutPart(rows, s.grants, i);
    }
    Whole(rows, s.grants);
  }

  /** Main result. Whatever order the source's queries answer in, every insert of the import
      satisfies every constraint, and the target ends up with the source's authority. */
  lemma ScanRebuilds(s: State, snap: Snapshot)
    requires Inv(s) && Scans(s, snap)
    ensures Importable(snap) && Built(snap) == Migrated(s)
  {
    hide Inv, Tabulates, Insertable, AccountsOf, Built, Put;
    Coherence.SeatsOf(s);
    AllAccounts(s);
    OrgRows(s, snap);
    LoginNames(s);
    AccountRowsInsert(snap.accounts, AccountsOf(s));
    SeatRowsInsert(snap.seats, s.seats, s.orgs.Keys, s.users.Keys);
    InvitationRowsInsert(s, snap.invitations);
    AgentRowsInsert(s, snap.agents);
    GrantRowsInsert(s, snap.grants);
    BuiltTables(s, snap);
  }

  lemma Columns(s: State)
    requires AccountsOf(s).Keys == s.users.Keys == s.access.Keys == s.credentials.Keys == s.identities.Keys
    requires forall u :: u in s.users ==> s.identities[u] == s.users[u].username
    ensures var accounts := AccountsOf(s);
            && UserColumn(accounts) == s.users && SubjectColumn(accounts) == s.identities
            && HashColumn(accounts) == s.credentials && AccessColumn(accounts) == s.access
  {
  }

  lemma BuiltTables(s: State, snap: Snapshot)
    requires s.deployment == Some(snap.deployment) && Put(map[], snap.accounts) == AccountsOf(s)
          && AccountsOf(s).Keys == s.users.Keys
    requires s.users.Keys == s.access.Keys == s.credentials.Keys == s.identities.Keys
    requires forall u :: u in s.users ==> s.identities[u] == s.users[u].username
    requires Put(map[], snap.orgs) == s.orgs && Put(map[], snap.seats) == s.seats
          && Put(map[], snap.invitations) == s.invitations
    requires Put(map[], snap.agents) == s.agents && Put(map[], snap.plans) == s.plans
          && Put(map[], snap.grants) == s.grants
    requires snap.log == s.log && snap.issuedSessions == s.issuedSessions
          && snap.issuedInvitations == s.issuedInvitations
    ensures Built(snap) == Migrated(s)
  {
    Columns(s);
    hide Put, AccountsOf;
  }

  // ---- what the scan accepts --------------------------------------------------------------------

  lemma {:induction false} RowCount<K(!new), V>(rows: seq<Row<K, V>>, table: map<K, V>)
    requires Tabulates(rows, table)
    ensures |rows| == |table|
  {
    if rows == [] {
      assert table.Keys == {};
    } else {
      var n := |rows| - 1;
      var rest := table - {rows[n].key};
      assert table.Keys == rest.Keys + {rows[n].key};
      forall k | k in rest
        ensures exists i :: 0 <= i < |rows[..n]| && rows[..n][i].key == k
      {
        var i :| 0 <= i < |rows| && rows[i].key == k;
        assert rows[..n][i].key == k;
      }
      RowCount(rows[..n], rest);
    }
  }

  /** `validateImportedControlUser`. */
  predicate RowAccepted(row: Login) {
    ProfileFits(row.user) && row.subject == row.user.username
  }

  /** One password identity and one membership per user, names a scan accepts, and an active platform owner. */
  predicate AccountsAccepted(s: State) {
    var accounts := AccountsOf(s);
    && s.users != map[] && |s.identities| == |s.users| && |s.credentials| == |s.users|
    && |s.access| == |s.users| && |accounts| == |s.users|
    && (forall u <- accounts.Keys :: RowAccepted(accounts[u]))
    && exists u <- accounts.Keys :: accounts[u].access.role == Owner && accounts[u].access.active
  }

  /** `scanControlUsers`: `rows` is the answer of the account join. */
  method ScanControlUsers(s: State, rows: seq<Row<Id, Login>>) returns (items: seq<Row<Id, Login>>, ok: bool)
    requires Tabulates(rows, AccountsOf(s))
    ensures ok <==> AccountsAccepted(s)
    ensures ok ==> items == rows
  {
    items := [];
    RowCount(rows, AccountsOf(s));
    if s.users == map[] || |s.identities| != |s.users| || |s.credentials| != |s.users| || |s.access| != |s.users| {
      return [], false;
    }
    for i := 0 to |rows|
      invariant items == rows[..i]
      invariant forall k :: 0 <= k < i ==> RowAccepted(rows[k].value)
    {
      if !RowAccepted(rows[i].value) {
        assert rows[i].key in AccountsOf(s).Keys;
        return items, false;
      }
      items := items + [rows[i]];
    }
    if |items| != |s.users| {
      return items, false;
    }
    ok := FindActiveOwner(items);
    hide AccountsOf;
    forall i | 0 <= i < |rows|
      ensures rows[i].key in AccountsOf(s).Keys
    {
    }
  }

  method FindActiveOwner(items: seq<Row<Id, Login>>) returns (found: bool)
    ensures found <==> exists i ::
              0 <= i < |items| && items[i].value.access.role == Owner && items[i].value.access.active
  {
    for i := 0 to |items|
      invariant forall k :: 0 <= k < i ==> items[k].value.access.role != Owner || !items[k].value.access.active
    {
      if items[i].value.access.role == Owner && items[i].value.access.active {
        return true;
      }
    }
    return false;
  }

  /** `scanControlPlans`. */
  method ScanControlPlans(rows: seq<Row<string, Plan>>) returns (plans: seq<Row<string, Plan>>, ok: bool)
    ensures ok <==> rows != [] && forall p <- rows :: Entitlements.PlanAllowed(p.key, p.value)
    ensures ok ==> plans == rows
  {
    plans := [];
    for i := 0 to |rows|
      invariant plans == rows[..i]
      invariant forall k :: 0 <= k < i ==> Entitlements.PlanAllowed(rows[k].key, rows[k].value)
    {
      if !Entitlements.PlanAllowed(rows[i].key, rows[i].value) {
        assert rows[i] in rows;
        return plans, false;
      }
      plans := plans + [rows[i]];
    }
    ok := |plans| != 0;
  }

  predicate SourceAccepted(s: State) {
    && s.deployment.Some? && AccountsAccepted(s)
    && s.plans != map[] && PlansAllowed(s.plans)
  }

  /** `scanControlSnapshot`: `answers` holds what the queries return. */
  method ScanControlSnapshot(s: State, answers: Snapshot) returns (out: Option<Snapshot>)
    requires s.deployment.Some? ==> Scans(s, answers)
    ensures out == if SourceAccepted(s) then Some(answers) else None
  {
    if s.deployment.None? {
      return None;
    }
    var items, ok := ScanControlUsers(s, answers.accounts);
    if !ok {
      return None;
    }
    var plans, fine := ScanControlPlans(answers.plans);
    PlanRows(answers.plans, s.plans);
    if !fine {
      return None;
    }
    out := Some(answers.(accounts := items, plans := plans));
  }

  lemma PlanRows(rows: seq<Row<string, Plan>>, plans: map<string, Plan>)
    requires Tabulates(rows, plans)
    ensures rows != [] <==> plans != map[]
    ensures (forall p <- rows :: Entitlements.PlanAllowed(p.key, p.value)) <==> PlansAllowed(plans)
  {
    hide Entitlements.PlanAllowed;
    if forall p <- rows :: Entitlements.PlanAllowed(p.key, p.value) {
      forall key | key in plans
        ensures Entitlements.PlanAllowed(key, plans[key])
      {
        var i :| 0 <= i < |rows| && rows[i].key == key;
        assert rows[i] in rows;
      }
    }
    if rows != [] {
      assert rows[0].key in plans;
    } else {
      assert plans.Keys == {};
    }
  }

  lemma PlatformOwner(s: State) returns (u: Id)
    requires Inv(s) && s.deployment.Some?
    ensures u in s.access && s.access[u].active && s.access[u].role == Owner && FREE in s.plans && s.plans[FREE].active
  {
    hide AccountsFit, SeatsFit, SessionsFit, InvitationsFit, AgentsFit, NodesFit, NodesBacked, PlansFit,
      ReceiptsFit, Ordered;
    u :| u in s.access && s.access[u].active && s.access[u].role == Owner;
  }

  lemma SameCounts(s: State)
    requires s.users.Keys == s.access.Keys == s.credentials.Keys == s.identities.Keys == AccountsOf(s).Keys
    ensures |s.identities| == |s.users| && |s.credentials| == |s.users| && |s.access| == |s.users|
         && |AccountsOf(s)| == |s.users|
  {
    hide AccountsOf;
    assert |s.identities| == |s.identities.Keys| && |s.credentials| == |s.credentials.Keys|
      && |s.access| == |s.access.Keys| && |s.users| == |s.users.Keys|;
    assert |AccountsOf(s)| == |AccountsOf(s).Keys|;
  }

  lemma AccountsPass(s: State, u: Id)
    requires s.users.Keys == s.access.Keys == s.credentials.Keys == s.identities.Keys == AccountsOf(s).Keys
    requires forall u :: u in s.users ==> s.identities[u] == s.users[u].username
    requires u in s.access && s.access[u].active && s.access[u].role == Owner
    ensures AccountsAccepted(s) <==> NamesFit(s.users)
  {
    hide ProfileFits;
    SameCounts(s);
    assert u in s.users.Keys;
    assert u in AccountsOf(s).Keys;
    assert forall v :: v in s.users.Keys <==> v in AccountsOf(s).Keys;
  }

  /** The validation accepts a reachable source exactly when its names and plans fit. */
  lemma ReachableAccepted(s: State)
    requires Inv(s) && s.deployment.Some?
    ensures SourceAccepted(s) <==> TextsFit(s)
  {
    hide Inv, AccountsAccepted, AccountsOf, NamesFit, PlansAllowed;
    AllAccounts(s);
    var u := PlatformOwner(s);
    AccountsPass(s, u);
  }

  // ---- the whole import ----------------------------------------------------------------------------

  /** The import's count of rows and the setup check agree on which targets are blank. */
  lemma BlankIsUntouched(target: State)
    requires Inv(target)
    ensures Untouched(target) <==> Blank(target)
  {
    hide Inv;
    if target.deployment.None? {
      Preservation.BlankTables(target);
    }
  }

  /** `ImportControlSQLite`: scan the source, then insert what the scan returned. */
  method ImportControlSQLite(source: State, answers: Snapshot, target: State) returns (tx: Tx)
    requires Inv(source) && Inv(target)
    requires source.deployment.Some? ==> Scans(source, answers)
    ensures tx == if source.deployment.None? then Abort(RequestInvalid) else ImportControl(target, source)
  {
    hide Inv, Scans, AccountsAccepted, PlansAllowed, TextsFit, Untouched, Importable, Built, Blank;
    var snap := ScanControlSnapshot(source, answers);
    if source.deployment.Some? {
      ReachableAccepted(source);
      ScanRebuilds(source, answers);
      BlankIsUntouched(target);
    }
    if snap.None? {
      return Abort(RequestInvalid);
    }
    tx := ImportControlDeployment(target, snap.value);
  }

  // ---- the round trip ------------------------------------------------------------------------------

  /**
   Main result. Any reachable authority can be scanned and imported into a blank target,
   exactly as long as its names and plans fit: then every insert succeeds, all authority rows and
   the log come back with their ids, and sessions, devices and receipts are gone; otherwise the
   target stays as it is.
   */
  lemma MigrationRoundTrip(states: seq<State>, actions: seq<Action>, i: nat, snap: Snapshot, target: State)
    requires Trace(states, actions) && i < |states| && Scans(states[i], snap)
    requires Inv(target) && Blank(target)
    ensures SourceAccepted(states[i]) <==> TextsFit(states[i])
    ensures Importable(snap) && Inv(Built(snap))
    ensures Step(target, DoImport(states[i])) == if TextsFit(states[i]) then Built(snap) else target
    ensures Built(snap).sessions == map[] && Built(snap).nodes == map[] && Built(snap).receipts == map[]
    ensures forall u :: u in states[i].users && u in states[i].access ==>
              u in Built(snap).users && u in Built(snap).access
              && Coherence.ViewOf(Built(snap), u) == Coherence.ViewOf(states[i], u)
  {
    hide Allowed, Step, Inv, SourceAccepted, Importable, Built, Scans, Coherence.ViewOf, Blank, TextsFit;
    Preservation.RunKeeps(states, actions, i);
    ScannedDeployment(states[i], snap);
    ReachableAccepted(states[i]);
    ScanRebuilds(states[i], snap);
    Preservation.MigratedKeeps(states[i]);
    ImportStep(target, states[i]);
    forall u | u in states[i].users && u in states[i].access
      ensures u in Migrated(states[i]).users && u in Migrated(states[i]).access
           && Coherence.ViewOf(Migrated(states[i]), u) == Coherence.ViewOf(states[i], u)
    {
      MigratedView(states[i], u);
    }
  }

  /** Main result. An authority whose names and plans fit at one state, as they do from the first
      set-up on, is accepted at every later one. */
  lemma AlwaysMigrates(states: seq<State>, actions: seq<Action>, i: nat, j: nat)
    requires Trace(states, actions) && i <= j < |states| && TextsFit(states[i]) && states[j].deployment.Some?
    ensures SourceAccepted(states[j])
  {
    hide Allowed, Step, Inv, SourceAccepted, TextsFit;
    Profiles.RunTexts(states, actions, i, j);
    Preservation.RunKeeps(states, actions, j);
    ReachableAccepted(states[j]);
  }

  /** A blank authority has nothing that could be refused. */
  lemma BlankFits(s: State)
    requires Blank(s)
    ensures TextsFit(s)
  {
  }

  /** Main result. An authority that began with blank tables is accepted at every state with a deployment. */
  lemma BornHereMigrates(states: seq<State>, actions: seq<Action>, j: nat)
    requires Trace(states, actions) && Blank(states[0]) && j < |states| && states[j].deployment.Some?
    ensures SourceAccepted(states[j])
  {
    hide Allowed, Step, Inv, SourceAccepted, TextsFit, Blank;
    BlankFits(states[0]);
    AlwaysMigrates(states, actions, 0, j);
  }

  /** Main result. A username the rules refuse shuts the migration for good, whatever is renamed. */
  lemma NeverMigrates(states: seq<State>, actions: seq<Action>, i: nat, j: nat, user: Id)
    requires Trace(states, actions) && i <= j < |states|
    requires user in states[i].users && !Texts.UsernameAllowed(states[i].users[user].username)
    ensures !SourceAccepted(states[j])
    ensures forall target :: Step(target, DoImport(states[j])) == target
  {
    hide Allowed, Inv, SourceAccepted, Texts.UsernameAllowed, Texts.IsBlank, PlansAllowed, Execute;
    Profiles.UsernamesNeverChange(states, actions, i, j, user);
    Preservation.RunKeeps(states, actions, j);
    assert user in states[j].users.Keys && !ProfileFits(states[j].users[user]);
    AcceptedFits(states[j]);
    forall target
      ensures Step(target, DoImport(states[j])) == target
    {
      RefusedImport(target, states[j]);
    }
  }

  lemma AcceptedFits(s: State)
    requires Inv(s)
    ensures SourceAccepted(s) ==> TextsFit(s)
  {
    hide Inv, AccountsAccepted, TextsFit;
    if SourceAccepted(s) {
      ReachableAccepted(s);
    }
  }

  lemma RefusedImport(target: State, source: State)
    requires !TextsFit(source)
    ensures Step(target, DoImport(source)) == target
  {
    hide TextsFit;
  }

  lemma ScannedDeployment(s: State, snap: Snapshot)
    requires Scans(s, snap)
    ensures s.deployment.Some?
  {
    hide Tabulates;
  }

  lemma ImportStep(target: State, source: State)
    requires Blank(target)
    ensures Step(target, DoImport(source)) == if TextsFit(source) then Migrated(source) else target
  {
    hide TextsFit;
  }

  lemma MigratedView(s: State, u: Id)
    requires u in s.users && u in s.access
    ensures u in Migrated(s).users && u in Migrated(s).access
         && Coherence.ViewOf(Migrated(s), u) == Coherence.ViewOf(s, u)
  {
  }

  /** A replica keeps its cursor across the move: of any later page the target gives, the part that
      was already there is the source's own page, and the rest has ids beyond everything moved. */
  lemma CursorSurvives(source: State, snap: Snapshot, states: seq<State>, actions: seq<Action>, k: nat)
    requires Scans(source, snap) && Trace(states, actions) && states[0].log == Built(snap).log && k < |states|
    ensures source.log <= states[k].log
    ensures forall i :: |source.log| <= i < |states[k].log| ==> LatestId(source.log) < states[k].log[i].id
    ensures forall after, limit, page :: IsPage(states[k].log, after, limit, page) ==>
              exists n :: 0 <= n <= |page| && SplitPage(source.log, after, limit, page, n)
  {
    hide Inv, Allowed, Step, IsPage, Tabulates, SplitPage;
    Coherence.LogGrows(states, actions, 0, k);
    Preservation.RunKeeps(states, actions, k);
    Coherence.SeatsOf(states[k]);
    forall i | |source.log| <= i < |states[k].log|
      ensures LatestId(source.log) < states[k].log[i].id
    {
      Coherence.BehindCursor(source.log, states[k].log, i);
    }
    forall after, limit, page | IsPage(states[k].log, after, limit, page)
      ensures exists n :: 0 <= n <= |page| && SplitPage(source.log, after, limit, page, n)
    {
      var n := PageSplits(source.log, states[k].log, after, limit, page);
    }
  }

  /** The first `n` events of `page` are the page of the old log, the others came later. */
  ghost predicate SplitPage(before: seq<Event>, after: nat, limit: nat, page: seq<Event>, n: nat)
    requires n <= |page|
  {
    IsPage(before, after, limit, page[..n]) && forall i :: n <= i < |page| ==> LatestId(before) < page[i].id
  }

  /** How many events of an ordered page lie at or below `id`. */
  lemma {:induction false} UpTo(page: seq<Event>, id: nat) returns (n: nat)
    requires Ordered(page)
    ensures n <= |page| && (forall i :: 0 <= i < n ==> page[i].id <= id)
         && forall i :: n <= i < |page| ==> id < page[i].id
  {
    if page == [] {
      n := 0;
    } else if page[|page| - 1].id <= id {
      n := |page|;
    } else {
      n := UpTo(page[..|page| - 1], id);
    }
  }

  lemma PageSplits(before: seq<Event>, log: seq<Event>, after: nat, limit: nat, page: seq<Event>) returns (n: nat)
    requires Ordered(log) && before <= log && IsPage(log, after, limit, page)
    ensures n <= |page| && SplitPage(before, after, limit, page, n)
  {
    n := UpTo(page, LatestId(before));
    OldPart(before, log, page, n);
    var part := page[..n];
    forall e | e in before && after < e.id
      ensures e in part || (|part| == limit && LatestId(part) < e.id)
    {
      InOldPart(before, log, after, limit, page, n, e);
    }
  }

  /** What an ordered log holds up to its old end is the old log. */
  lemma OldPart(before: seq<Event>, log: seq<Event>, page: seq<Event>, n: nat)
    requires Ordered(log) && before <= log && n <= |page| && Ordered(page) && forall e <- page :: e in log
    requires forall i :: 0 <= i < n ==> page[i].id <= LatestId(before)
    ensures Ordered(page[..n]) && forall e <- page[..n] :: e in before
  {
    forall i | 0 <= i < n
      ensures page[i] in before
    {
      assert page[i] in page;
      var k :| 0 <= k < |log| && log[k] == page[i];
      Coherence.BehindCursor(before, log, k);
    }
  }

  lemma InOldPart(before: seq<Event>, log: seq<Event>, after: nat, limit: nat, page: seq<Event>, n: nat, e: Event)
    requires Ordered(log) && before <= log && IsPage(log, after, limit, page) && n <= |page| && e in before
          && after < e.id
    requires forall i :: n <= i < |page| ==> LatestId(before) < page[i].id
    ensures e in page[..n] || (n == limit && LatestId(page[..n]) < e.id)
  {
    var k :| 0 <= k < |before| && before[k] == e;
    assert log[k] == e;
    Coherence.BehindCursor(before, log, k);
    assert e in log;
    if e in page {
      var i :| 0 <= i < |page| && page[i] == e;
      assert page[..n][i] == e;
    } else {
      assert e.id <= LatestId(before);
      assert n == |page|;
      assert page[..n] == page;
    }
  }
}
