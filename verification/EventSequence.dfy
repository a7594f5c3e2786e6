/**
 The event sequence under concurrency: any number of transactions wait for the
 control_state row, take ids from the sequence, commit or roll back, while any number
 of replicas poll the committed rows. Sources: beginIdentityWrite,
 appendIdentityInvalidation, ListIdentityInvalidations, lockControlState.
 */
module EventSequence {
  import opened Records
  import opened InvalidationLog

  /** A replica: where it started, where it stands, and what it has received. */
  datatype Replica = Replica(start: nat, cursor: nat, received: seq<Event>)

  /** `table` holds the committed rows in the order of their commits; `last` is the sequence. */
  datatype World = World(
    table: seq<Event>, last: nat, holder: Option<Id>,
    pending: map<Id, seq<Event>>, replicas: map<Id, Replica>)

  datatype Move =
    | Begin(writer: Id)
    | Acquire(writer: Id)
    | Allocate(writer: Id, body: Draft)
    | Publish(writer: Id)
    | Rollback(writer: Id, last: nat)
    | Subscribe(replica: Id, cursor: nat)
    | Poll(replica: Id, limit: int, page: seq<Event>)

  const START := World([], 0, None, map[], map[])

  /** When a move can happen. With `locked`, ids are taken under the row lock only; the
      sequence may (PostgreSQL) or may not (SQLite) keep the ids of a rolled-back writer. */
  ghost predicate Enabled(w: World, m: Move, locked: bool) {
    match m
    case Begin(x) => x !in w.pending
    case Acquire(x) => x in w.pending && w.holder.None?
    case Allocate(x, _) => x in w.pending && (locked ==> w.holder == Some(x))
    case Publish(x) => x in w.pending && (locked ==> w.holder == Some(x))
    case Rollback(x, last) => x in w.pending && last <= w.last
        && (forall e <- w.table :: e.id <= last)
        && (w.holder != Some(x) ==> last == w.last)
    case Subscribe(r, _) => r !in w.replicas
    case Poll(r, limit, page) => r in w.replicas && IsPage(w.table, w.replicas[r].cursor, Batch(limit), page)
  }

  function Release(holder: Option<Id>, x: Id): Option<Id> {
    if holder == Some(x) then None else holder
  }

  ghost function Do(w: World, m: Move): World
    requires Enabled(w, m, false)
  {
    match m
    case Begin(x) => w.(pending := w.pending[x := []])
    case Acquire(x) => w.(holder := Some(x))
    case Allocate(x, body) =>
      w.(last := w.last + 1, pending := w.pending[x := w.pending[x] + [Event(w.last + 1, body)]])
    case Publish(x) => w.(table := w.table + w.pending[x], pending := w.pending - {x}, holder := Release(w.holder, x))
    case Rollback(x, last) => w.(last := last, pending := w.pending - {x}, holder := Release(w.holder, x))
    case Subscribe(r, cursor) => w.(replicas := w.replicas[r := Replica(cursor, cursor, [])])
    case Poll(r, _, page) =>
      var was := w.replicas[r];
      w.(replicas := w.replicas[r := Replica(was.start, NextCursor(was.cursor, page), was.received + page)])
  }

  ghost predicate Runs(worlds: seq<World>, moves: seq<Move>, locked: bool) {
    && |worlds| == |moves| + 1 && worlds[0] == START
    && forall i :: 0 <= i < |moves| ==>
         && Enabled(worlds[i], moves[i], locked) && Enabled(worlds[i], moves[i], false)
         && worlds[i + 1] == Do(worlds[i], moves[i])
  }

  // ---- what the lock keeps -----------------------------------------------------------

  /** All ids of `events` lie in (low, high], in order. */
  ghost predicate Within(events: seq<Event>, low: nat, high: nat) {
    Ordered(events) && forall e <- events :: low < e.id <= high
  }

  /** A replica holds exactly the committed events between its start and its cursor. */
  ghost predicate UpToDate(table: seq<Event>, r: Replica) {
    && r.start <= r.cursor && Ordered(r.received)
    && (forall e <- table :: e in r.received <==> r.start < e.id <= r.cursor)
    && (forall e <- r.received :: e in table)
    && (r.cursor == r.start || (r.received != [] && r.cursor == LatestId(r.received)))
  }

  /** Only the holder of the row has ids pending, all beyond the table. */
  ghost predicate WritersFit(pending: map<Id, seq<Event>>, holder: Option<Id>, low: nat, last: nat) {
    && (holder.Some? ==> holder.value in pending)
    && (forall x <- pending :: Within(pending[x], low, last))
    && (forall x <- pending :: holder != Some(x) ==> pending[x] == [])
  }

  ghost predicate ReplicasFit(table: seq<Event>, replicas: map<Id, Replica>) {
    forall r <- replicas :: UpToDate(table, replicas[r])
  }

  ghost predicate Safe(w: World) {
    Within(w.table, 0, w.last) && WritersFit(w.pending, w.holder, LatestId(w.table), w.last)
      && ReplicasFit(w.table, w.replicas)
  }

  lemma LatestBounds(events: seq<Event>, e: Event)
    requires Ordered(events) && e in events
    ensures e.id <= LatestId(events)
  {
    var i :| 0 <= i < |events| && events[i] == e;
    assert i < |events| - 1 ==> events[i].id < events[|events| - 1].id;
  }

  /** Two ordered runs, one below and one above `mid`. */
  lemma Concatenated(a: seq<Event>, b: seq<Event>, mid: nat)
    requires Ordered(a) && Ordered(b) && (forall e <- a :: e.id <= mid) && (forall e <- b :: mid < e.id)
    ensures Ordered(a + b)
  {
    forall i, j | 0 <= i < j < |a + b|
      ensures (a + b)[i].id < (a + b)[j].id
    {
      if i < |a| && |a| <= j {
        assert a[i] in a && b[j - |a|] in b;
      }
    }
  }

  lemma Joined(a: seq<Event>, b: seq<Event>, high: nat)
    requires Within(a, 0, high) && Within(b, LatestId(a), high)
    ensures Within(a + b, 0, high)
  {
    forall e | e in a
      ensures e.id <= LatestId(a)
    {
      LatestBounds(a, e);
    }
    Concatenated(a, b, LatestId(a));
  }

  /** A commit appends ids beyond every replica's cursor, so nobody has to look back. */
  lemma CommitKeepsReplica(table: seq<Event>, batch: seq<Event>, r: Replica)
    requires Ordered(table) && UpToDate(table, r) && forall e <- batch :: LatestId(table) < e.id
    ensures UpToDate(table + batch, r)
  {
    forall e | e in table + batch
      ensures e in r.received <==> r.start < e.id <= r.cursor
    {
      if e !in table {
        assert e in batch;
        assert e !in r.received;
        if r.cursor != r.start {
          var top := r.received[|r.received| - 1];
          assert top in r.received;
          LatestBounds(table, top);
        }
      }
    }
  }

  lemma PollKeepsReplica(table: seq<Event>, r: Replica, limit: nat, page: seq<Event>)
    requires Ordered(table) && UpToDate(table, r) && IsPage(table, r.cursor, limit, page) && 0 < limit
    ensures UpToDate(table, Replica(r.start, NextCursor(r.cursor, page), r.received + page))
  {
    if page == [] {
      assert r.received + page == r.received;
    } else {
      PageExtends(table, r, limit, page);
    }
  }

  lemma PageExtends(table: seq<Event>, r: Replica, limit: nat, page: seq<Event>)
    requires Ordered(table) && UpToDate(table, r) && IsPage(table, r.cursor, limit, page) && page != []
    ensures UpToDate(table, Replica(r.start, page[|page| - 1].id, r.received + page))
  {
    var top := page[|page| - 1];
    assert top in page;
    forall e | e in page
      ensures r.cursor < e.id <= top.id && e in table
    {
      LatestBounds(page, e);
    }
    forall e | e in r.received
      ensures e in table && e.id <= r.cursor
    {
    }
    Concatenated(r.received, page, r.cursor);
    PageCovers(table, r, limit, page);
    hide IsPage, Ordered;
    assert (r.received + page)[|r.received + page| - 1] == top;
  }

  /** Between start and the new cursor nothing is missing and nothing extra. */
  lemma PageCovers(table: seq<Event>, r: Replica, limit: nat, page: seq<Event>)
    requires UpToDate(table, r) && IsPage(table, r.cursor, limit, page) && page != []
    requires forall e <- page :: r.cursor < e.id <= page[|page| - 1].id
    ensures forall e <- table :: e in r.received + page <==> r.start < e.id <= page[|page| - 1].id
    ensures forall e <- r.received + page :: e in table
  {
    hide Ordered;
    forall e | e in table
      ensures e in r.received + page <==> r.start < e.id <= page[|page| - 1].id
    {
      assert e in r.received + page <==> e in r.received || e in page;
    }
  }

  lemma AllocateKeeps(events: seq<Event>, low: nat, high: nat, body: Draft)
    requires Within(events, low, high) && low <= high
    ensures Within(events + [Event(high + 1, body)], low, high + 1)
  {
    var all := events + [Event(high + 1, body)];
    forall i, j | 0 <= i < j < |all|
      ensures all[i].id < all[j].id
    {
      assert all[i] in events;
    }
    forall e | e in all
      ensures low < e.id <= high + 1
    {
      assert e in events || e == Event(high + 1, body);
    }
  }

  lemma SafeTable(w: World)
    requires Safe(w)
    ensures LatestId(w.table) <= w.last
  {
    if w.table != [] {
      assert w.table[|w.table| - 1] in w.table;
    }
  }

  lemma DoKeeps(w: World, m: Move)
    requires Safe(w) && Enabled(w, m, true) && Enabled(w, m, false)
    ensures Safe(Do(w, m))
  {
    hide Safe;
    match m
    case Begin(x) => BeginSafe(w, x);
    case Acquire(x) => AcquireSafe(w, x);
    case Allocate(x, body) => AllocateSafe(w, x, body);
    case Publish(x) => CommitSafe(w, x);
    case Rollback(x, last) => RollbackSafe(w, x, last);
    case Subscribe(r, cursor) => SubscribeSafe(w, r, cursor);
    case Poll(r, limit, page) => PollSafe(w, r, limit, page);
  }

  lemma EmptyWithin(low: nat, high: nat)
    ensures Within([], low, high)
  {
  }

  lemma BeginSafe(w: World, x: Id)
    requires Safe(w) && Enabled(w, Begin(x), true)
    ensures Safe(Do(w, Begin(x)))
  {
    hide UpToDate;
    EmptyWithin(LatestId(w.table), w.last);
  }

  lemma AcquireSafe(w: World, x: Id)
    requires Safe(w) && Enabled(w, Acquire(x), true)
    ensures Safe(Do(w, Acquire(x)))
  {
    hide UpToDate, Within;
  }

  lemma SubscribeSafe(w: World, r: Id, cursor: nat)
    requires Safe(w) && Enabled(w, Subscribe(r, cursor), true)
    ensures Safe(Do(w, Subscribe(r, cursor)))
  {
    hide Within;
    assert UpToDate(w.table, Replica(cursor, cursor, []));
    hide UpToDate;
  }

  lemma PollSafe(w: World, r: Id, limit: int, page: seq<Event>)
    requires Safe(w) && Enabled(w, Poll(r, limit, page), true)
    ensures Safe(Do(w, Poll(r, limit, page)))
  {
    PollKeepsReplica(w.table, w.replicas[r], Batch(limit), page);
    hide Within, UpToDate;
  }

  /** Only the holder has anything pending, and its next id is the largest. */
  lemma AllocatePending(pending: map<Id, seq<Event>>, x: Id, low: nat, last: nat, body: Draft)
    requires WritersFit(pending, Some(x), low, last) && low <= last
    ensures WritersFit(pending[x := pending[x] + [Event(last + 1, body)]], Some(x), low, last + 1)
  {
    AllocateKeeps(pending[x], low, last, body);
    EmptyWithin(low, last + 1);
    hide Within;
  }

  lemma WithinMore(events: seq<Event>, low: nat, high: nat)
    requires Within(events, low, high)
    ensures Within(events, low, high + 1)
  {
    hide Ordered;
  }

  lemma AllocateSafe(w: World, x: Id, body: Draft)
    requires Safe(w) && Enabled(w, Allocate(x, body), true)
    ensures Safe(Do(w, Allocate(x, body)))
  {
    hide Safe, IsPage, LatestId;
    SafeTable(w);
    AllocatedSafe(w, x, body);
  }

  lemma AllocatedSafe(w: World, x: Id, body: Draft)
    requires Safe(w) && x in w.pending && w.holder == Some(x) && LatestId(w.table) <= w.last
    ensures Safe(w.(last := w.last + 1, pending := w.pending[x := w.pending[x] + [Event(w.last + 1, body)]]))
  {
    hide ReplicasFit, WritersFit, LatestId, Within;
    AllocatePending(w.pending, x, LatestId(w.table), w.last, body);
    WithinMore(w.table, 0, w.last);
  }

  lemma CommitSafe(w: World, x: Id)
    requires Safe(w) && Enabled(w, Publish(x), true)
    ensures Safe(Do(w, Publish(x)))
  {
    Joined(w.table, w.pending[x], w.last);
    var t := Do(w, Publish(x));
    forall y | y in t.pending
      ensures Within(t.pending[y], LatestId(t.table), t.last)
    {
      EmptyWithin(LatestId(t.table), t.last);
    }
    forall r | r in t.replicas
      ensures UpToDate(t.table, t.replicas[r])
    {
      CommitKeepsReplica(w.table, w.pending[x], w.replicas[r]);
    }
  }

  lemma RollbackSafe(w: World, x: Id, last: nat)
    requires Safe(w) && Enabled(w, Rollback(x, last), true)
    ensures Safe(Do(w, Rollback(x, last)))
  {
    hide UpToDate;
  }

  lemma {:induction false} RunSafe(worlds: seq<World>, moves: seq<Move>, i: nat)
    requires Runs(worlds, moves, true) && i < |worlds|
    ensures Safe(worlds[i])
  {
    hide Safe, Enabled, Do;
    if i == 0 {
      StartSafe();
    } else {
      RunSafe(worlds, moves, i - 1);
      DoKeeps(worlds[i - 1], moves[i - 1]);
    }
  }

  lemma StartSafe()
    ensures Safe(START)
  {
  }

  // ---- the two promises ------------------------------------------------------------------

  /** Main result. Commit order is id order: in every interleaving, what commits later has a
      larger id than everything visible before. */
  lemma {:induction false} CommitOrderIsIdOrder(worlds: seq<World>, moves: seq<Move>, i: nat, j: nat)
    requires Runs(worlds, moves, true) && i <= j < |worlds|
    ensures worlds[i].table <= worlds[j].table && Ordered(worlds[j].table)
    ensures forall k :: |worlds[i].table| <= k < |worlds[j].table| ==> LatestId(worlds[i].table) < worlds[j].table[k].id
    decreases j - i
  {
    hide Enabled, Do;
    RunSafe(worlds, moves, j);
    if i < j {
      CommitOrderIsIdOrder(worlds, moves, i, j - 1);
      TableGrows(worlds[j - 1], moves[j - 1]);
    }
  }

  lemma TableGrows(w: World, m: Move)
    requires Enabled(w, m, false)
    ensures w.table <= Do(w, m).table
  {
  }

  /**
   Main result. Exactly once: in every interleaving each replica has received the committed
   events between its start and its cursor, each once, in id order, and nothing else; a
   page shorter than its limit brings it level with the table.
   */
  lemma ExactlyOnce(worlds: seq<World>, moves: seq<Move>, i: nat, r: Id)
    requires Runs(worlds, moves, true) && i < |worlds| && r in worlds[i].replicas
    ensures UpToDate(worlds[i].table, worlds[i].replicas[r])
    ensures i < |moves| && moves[i].Poll? && moves[i].replica == r && |moves[i].page| < Batch(moves[i].limit) ==>
              && r in worlds[i + 1].replicas
              && forall e <- worlds[i + 1].table ::
                   worlds[i + 1].replicas[r].start < e.id ==> e in worlds[i + 1].replicas[r].received
  {
    hide Enabled, Do, Safe;
    RunSafe(worlds, moves, i);
    SafeReplica(worlds[i], r);
    if i < |moves| && moves[i].Poll? && moves[i].replica == r && |moves[i].page| < Batch(moves[i].limit) {
      ShortPage(worlds[i], r, moves[i].limit, moves[i].page);
    }
  }

  lemma SafeReplica(w: World, r: Id)
    requires Safe(w) && r in w.replicas
    ensures UpToDate(w.table, w.replicas[r])
  {
    hide UpToDate;
  }

  lemma ShortPage(w: World, r: Id, limit: int, page: seq<Event>)
    requires Enabled(w, Poll(r, limit, page), false) && r in w.replicas && UpToDate(w.table, w.replicas[r])
          && |page| < Batch(limit)
    ensures var t := Do(w, Poll(r, limit, page));
            r in t.replicas && forall e <- t.table :: t.replicas[r].start < e.id ==> e in t.replicas[r].received
  {
    hide Ordered;
    var was := w.replicas[r];
    forall e | e in w.table && was.start < e.id
      ensures e in was.received + page
    {
      assert e.id <= was.cursor ==> e in was.received;
    }
  }

  /** Once received, always received, and the cursor never moves back: nothing arrives twice. */
  lemma {:induction false} ReceivedGrows(worlds: seq<World>, moves: seq<Move>, i: nat, j: nat, r: Id)
    requires Runs(worlds, moves, true) && i <= j < |worlds| && r in worlds[i].replicas
    ensures r in worlds[j].replicas
    ensures worlds[i].replicas[r].received <= worlds[j].replicas[r].received
    ensures worlds[i].replicas[r].cursor <= worlds[j].replicas[r].cursor
         && worlds[i].replicas[r].start == worlds[j].replicas[r].start
    decreases j - i
  {
    hide Enabled, Do;
    if i < j {
      ReceivedGrows(worlds, moves, i, j - 1, r);
      ReplicaGrows(worlds[j - 1], moves[j - 1], r);
    }
  }

  lemma ReplicaGrows(w: World, m: Move, r: Id)
    requires Enabled(w, m, false) && r in w.replicas
    ensures var t := Do(w, m);
            && r in t.replicas && w.replicas[r].received <= t.replicas[r].received
            && w.replicas[r].cursor <= t.replicas[r].cursor && w.replicas[r].start == t.replicas[r].start
  {
    if m.Poll? && m.page != [] {
      assert m.page[|m.page| - 1] in m.page;
    }
  }

  // ---- progress ------------------------------------------------------------------------------

  /** Committed, and behind the cursor. */
  ghost function Waiting(table: seq<Event>, cursor: nat): set<Event> {
    set e <- table | cursor < e.id
  }

  function Least(a: nat, b: nat): nat {
    if a < b then a else b
  }

  function Elements(page: seq<Event>): set<Event> {
    set e <- page
  }

  lemma OneMore(rest: seq<Event>, last: Event)
    ensures Elements(rest + [last]) == Elements(rest) + {last}
  {
  }

  lemma {:induction false} PageCount(page: seq<Event>)
    requires Ordered(page)
    ensures |Elements(page)| == |page|
  {
    if page != [] {
      var rest := page[..|page| - 1];
      var last := page[|page| - 1];
      PageCount(rest);
      assert forall i :: 0 <= i < |rest| ==> rest[i].id < last.id;
      assert last !in Elements(rest);
      hide Ordered, Elements;
      assert page == rest + [last];
      OneMore(rest, last);
    }
  }

  /** A poll hands over what waits, as much of it as the limit allows: so it moves the cursor
      forward whenever anything waits. */
  lemma PollDelivers(table: seq<Event>, cursor: nat, limit: nat, page: seq<Event>)
    requires IsPage(table, cursor, limit, page) && 0 < limit
    ensures |page| == Least(limit, |Waiting(table, cursor)|)
    ensures |Waiting(table, NextCursor(cursor, page))| == |Waiting(table, cursor)| - |page|
    ensures Waiting(table, cursor) != {} ==> cursor < NextCursor(cursor, page)
  {
    var taken := Elements(page);
    PageCount(page);
    PageTaken(table, cursor, limit, page, taken);
    if |page| < limit {
      assert Waiting(table, cursor) == taken;
    } else {
      Cardinality(taken, Waiting(table, cursor));
    }
  }

  lemma Cardinality(a: set<Event>, b: set<Event>)
    requires a <= b
    ensures |a| <= |b| && |b - a| == |b| - |a|
  {
    assert b == a + (b - a);
  }

  lemma PageTaken(table: seq<Event>, cursor: nat, limit: nat, page: seq<Event>, taken: set<Event>)
    requires IsPage(table, cursor, limit, page) && taken == Elements(page) && 0 < limit
    ensures taken <= Waiting(table, cursor)
    ensures Waiting(table, NextCursor(cursor, page)) == Waiting(table, cursor) - taken
    ensures |page| < limit ==> Waiting(table, cursor) == taken
    ensures page != [] ==> cursor < NextCursor(cursor, page)
  {
    if page != [] {
      assert page[|page| - 1] in page;
      forall e | e in page
        ensures e.id <= page[|page| - 1].id
      {
        LatestBounds(page, e);
      }
    }
  }

  /** The limits of the replica's polls from `i` up to `j`, added up; each is at least one. */
  function Budget(moves: seq<Move>, i: nat, j: nat, r: Id): nat
    requires i <= j <= |moves|
    decreases j - i
  {
    if i == j then 0
    else Budget(moves, i, j - 1, r)
           + if moves[j - 1].Poll? && moves[j - 1].replica == r then Batch(moves[j - 1].limit) else 0
  }

  /** What waits shrinks by exactly the limits polled for, until nothing waits. */
  lemma {:induction false} WaitingShrinks(worlds: seq<World>, moves: seq<Move>, i: nat, j: nat, r: Id)
    requires Runs(worlds, moves, true) && i <= j < |worlds| && r in worlds[i].replicas
          && worlds[i].table == worlds[j].table
    ensures r in worlds[j].replicas
    ensures var w := |Waiting(worlds[i].table, worlds[i].replicas[r].cursor)|;
            |Waiting(worlds[j].table, worlds[j].replicas[r].cursor)| == w - Least(w, Budget(moves, i, j, r))
    decreases j - i
  {
    hide Enabled, Do, Waiting;
    ReceivedGrows(worlds, moves, i, j, r);
    if i < j {
      ReceivedGrows(worlds, moves, i, j - 1, r);
      CommitOrderIsIdOrder(worlds, moves, i, j - 1);
      CommitOrderIsIdOrder(worlds, moves, j - 1, j);
      assert worlds[i].table == worlds[j - 1].table;
      WaitingShrinks(worlds, moves, i, j - 1, r);
      WaitingStep(worlds[j - 1], moves[j - 1], r);
    }
  }

  lemma WaitingStep(w: World, m: Move, r: Id)
    requires Enabled(w, m, false) && r in w.replicas && r in Do(w, m).replicas && Do(w, m).table == w.table
    ensures var left := |Waiting(w.table, w.replicas[r].cursor)|;
            |Waiting(Do(w, m).table, Do(w, m).replicas[r].cursor)| ==
              left - if m.Poll? && m.replica == r then Least(left, Batch(m.limit)) else 0
  {
    hide Waiting, IsPage;
    if m.Poll? && m.replica == r {
      PollDelivers(w.table, w.replicas[r].cursor, Batch(m.limit), m.page);
    }
  }

  /** Main result. Everything arrives: once the commits pause, polls whose limits add up to what
      waits bring the replica level with the table, in whatever sizes and between whatever else. */
  lemma EverythingArrives(worlds: seq<World>, moves: seq<Move>, i: nat, j: nat, r: Id)
    requires Runs(worlds, moves, true) && i <= j < |worlds| && r in worlds[i].replicas
          && worlds[i].table == worlds[j].table
    requires |Waiting(worlds[i].table, worlds[i].replicas[r].cursor)| <= Budget(moves, i, j, r)
    ensures r in worlds[j].replicas
    ensures forall e <- worlds[j].table :: worlds[j].replicas[r].start < e.id ==> e in worlds[j].replicas[r].received
  {
    hide Runs, Budget;
    WaitingShrinks(worlds, moves, i, j, r);
    ExactlyOnce(worlds, moves, j, r);
    var replica := worlds[j].replicas[r];
    assert Waiting(worlds[j].table, replica.cursor) == {};
    forall e | e in worlds[j].table && replica.start < e.id
      ensures e in replica.received
    {
      assert e !in Waiting(worlds[j].table, replica.cursor);
    }
  }

  // ---- without the lock ------------------------------------------------------------------------

  function Last(worlds: seq<World>): World
    requires worlds != []
  {
    worlds[|worlds| - 1]
  }

  lemma Extend(worlds: seq<World>, moves: seq<Move>, m: Move) returns (longer: seq<World>, more: seq<Move>)
    requires Runs(worlds, moves, false) && Enabled(Last(worlds), m, false)
    ensures Runs(longer, more, false) && longer != [] && Last(longer) == Do(Last(worlds), m)
  {
    hide Enabled, Do;
    longer, more := worlds + [Do(Last(worlds), m)], moves + [m];
  }

  lemma StartRuns()
    ensures Runs([START], [], false)
  {
  }

  /** Two writers hold ids 1 and 2 at the same time, and one replica listens. */
  lemma TwoWriters(body: Draft) returns (worlds: seq<World>, moves: seq<Move>)
    ensures Runs(worlds, moves, false) && worlds != []
    ensures var w := Last(worlds);
            && w.table == [] && w.holder.None? && w.pending.Keys == {1, 2}
            && w.pending[1] == [Event(1, body)] && w.pending[2] == [Event(2, body)]
            && 0 in w.replicas && w.replicas[0] == Replica(0, 0, [])
  {
    hide Runs;
    worlds, moves := [START], [];
    StartRuns();
    worlds, moves := Extend(worlds, moves, Subscribe(0, 0));
    worlds, moves := Extend(worlds, moves, Begin(1));
    worlds, moves := Extend(worlds, moves, Begin(2));
    worlds, moves := Extend(worlds, moves, Allocate(1, body));
    worlds, moves := Extend(worlds, moves, Allocate(2, body));
  }

  /** Why the lock comes before the ids: without it a replica passes an id that commits
      later, and the event is never delivered. */
  lemma WithoutTheLock(body: Draft) returns (worlds: seq<World>, moves: seq<Move>, lost: Event)
    ensures Runs(worlds, moves, false)
    ensures var w := Last(worlds);
            && 0 in w.replicas && lost in w.table
            && w.replicas[0].start < lost.id <= w.replicas[0].cursor && lost !in w.replicas[0].received
  {
    hide Runs;
    lost := Event(1, body);
    worlds, moves := TwoWriters(body);
    worlds, moves := Extend(worlds, moves, Publish(2));
    assert Last(worlds).table == [Event(2, body)];
    worlds, moves := Extend(worlds, moves, Poll(0, 256, [Event(2, body)]));
    worlds, moves := Extend(worlds, moves, Publish(1));
    assert Last(worlds).table == [Event(2, body), lost] && Last(worlds).table[1] == lost;
  }
}
