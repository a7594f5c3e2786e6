/**
 The rows of the identity authority, one datatype per table, and the state
 that holds all tables. Identifiers, token digests and credential digests are
 plain numbers; a NULL text and an empty text are the same value.
 */
module Records {

  type Id = nat
  type Time = int

  datatype Option<+T> = None | Some(value: T)

  /** Platform roles and organization roles share their names but not their meaning. */
  datatype Role = Owner | Admin | Member

  /** The rule of both `require…Manager` queries: nobody manages an owner, an owner
      manages everybody else, an admin manages only plain members. */
  predicate Outranks(role: Role, target: Role) {
    target != Owner && (role == Owner || (role == Admin && target == Member))
  }

  function Rank(role: Role): nat {
    match role
    case Owner => 2
    case Admin => 1
    case Member => 0
  }

  /** A salted password hash: equal only for the same password and the same salt. */
  datatype Hash = Hash(password: string, salt: nat)

  predicate Matches(password: string, hash: Hash) {
    hash.password == password
  }

  /** SHA-256 digest of a device credential, or the reserved value of a tombstone,
      which no digest can equal. */
  datatype Credential = Digest(digest: Id) | Tombstone(node: Id)

  datatype Deployment = Deployment(active: bool)

  datatype User = User(username: string, displayName: string, avatar: string, active: bool, updatedAt: Time)

  /** Row of `deployment_memberships`. */
  datatype Access = Access(role: Role, active: bool, webDisabled: bool, updatedAt: Time)

  datatype Organization = Organization(name: string, active: bool)

  /** Primary key and row of `organization_memberships`. */
  datatype Seat = Seat(org: Id, user: Id)
  datatype Membership = Membership(role: Role, active: bool, updatedAt: Time)

  datatype Invitation = Invitation(
    org: Id, token: Id, role: Role, creator: Id, expires: Time,
    acceptedBy: Option<Id>, acceptedAt: Option<Time>, revokedAt: Option<Time>)

  datatype Session = Session(user: Id, token: Id, expires: Time, revoked: bool)

  datatype Agent = Agent(org: Id, owner: Id, source: Id, name: string, avatar: string, active: bool)

  datatype Node = Node(
    org: Id, owner: Id, session: Id, credential: Credential, name: string,
    agents: seq<Id>, createdAt: Time, revoked: bool)

  datatype Plan = Plan(name: string, active: bool, limit: Option<nat>, notes: string, sortOrder: int, updatedAt: Time)

  /** Row of `member_entitlements`. */
  datatype Grant = Grant(plan: string, updatedAt: Time)

  /** A row of any table, with its primary key. */
  datatype Row<K, V> = Row(key: K, value: V)

  /** The table after upserting the rows one by one. */
  function Put<K, V>(table: map<K, V>, rows: seq<Row<K, V>>): map<K, V> {
    if rows == [] then table
    else Put(table, rows[..|rows| - 1])[rows[|rows| - 1].key := rows[|rows| - 1].value]
  }

  /** A registration names at most 32 agents; a verification accepts at most 100. */
  const MAX_NODE_AGENTS := 32
  const MAX_VERIFIED_AGENTS := 100

  const FREE := "free"
  const ADMIN_PLAN := "admin"

  datatype Effect = Committed | NotApplied

  /** Primary key of `password_change_receipts`. */
  datatype Request = Request(user: Id, request: Id)

  datatype Reason = OrganizationChanged | SessionRevoked | ProfileChanged | PrincipalChanged | EntitlementChanged

  /** What an invalidation names besides its user: nothing, a browser session, or a device. */
  datatype Target = Account | SessionRef(session: Id) | NodeRef(node: Id)

  /** An invalidation before the database has given it an id. */
  datatype Draft = Draft(user: Id, target: Target, reason: Reason, org: Option<Id>, revoked: bool, at: Time)

  datatype Event = Event(id: nat, body: Draft)

  /** All tables. The two `issued` sets record every session and invitation id ever
      generated, because those are the only rows that are deleted again. */
  datatype State = State(
    deployment: Option<Deployment>,
    users: map<Id, User>,
    identities: map<Id, string>,
    credentials: map<Id, Hash>,
    access: map<Id, Access>,
    orgs: map<Id, Organization>,
    seats: map<Seat, Membership>,
    invitations: map<Id, Invitation>,
    sessions: map<Id, Session>,
    agents: map<Id, Agent>,
    nodes: map<Id, Node>,
    plans: map<string, Plan>,
    grants: map<Id, Grant>,
    receipts: map<Request, Effect>,
    log: seq<Event>,
    issuedSessions: set<Id>,
    issuedInvitations: set<Id>)

  const EMPTY := State(
    None, map[], map[], map[], map[], map[], map[], map[], map[], map[], map[], map[], map[], map[], [], {}, {})

  datatype Fault =
    | NotFound | StateConflict | LastOwner | UsernameConflict | PlanNotFound
    | InvitationInvalid | AlreadySetup | RequestInvalid | Constraint
    | ReceiptExists | CredentialChanged

  /** A transaction either commits a whole new state or rolls back with a fault. */
  datatype Tx = Commit(state: State) | Abort(fault: Fault) {
    function After(before: State): State {
      if Commit? then state else before
    }
  }

  /** Row `key` is there afterwards, and no other row has come, gone or changed. */
  ghost predicate OnlyAt<K(!new), V(!new)>(before: map<K, V>, after: map<K, V>, key: K) {
    && key in after
    && forall k :: k != key ==> (k in after <==> k in before) && (k in after ==> after[k] == before[k])
  }

  function UserSet(rows: seq<Id>): set<Id> {
    set u <- rows
  }

  /** `rows` is what an unordered SELECT over the set `items` may return. */
  ghost predicate Lists<T(!new)>(rows: seq<T>, items: set<T>) {
    && (forall i, j :: 0 <= i < j < |rows| ==> rows[i] != rows[j])
    && (forall x :: x in rows <==> x in items)
  }
}
