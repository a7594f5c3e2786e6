/**
 The append-only invalidation log as one transaction sees it
 (internal/storage/auth/identity_invalidation.go): ids are one above the largest
 id in the table, and a reader lists what lies behind its cursor.
 */
module InvalidationLog {
  import opened Records

  const MAX_BATCH := 256

  /** `SELECT COALESCE(MAX(event_id), 0)` over an ordered log. */
  function LatestId(log: seq<Event>): nat {
    if log == [] then 0 else log[|log| - 1].id
  }

  function Append(log: seq<Event>, body: Draft): seq<Event> {
    log + [Event(LatestId(log) + 1, body)]
  }

  /** One event per row, the same but for its user. */
  function ForUsers(log: seq<Event>, rows: seq<Id>, template: Draft): seq<Event> {
    if rows == [] then log
    else Append(ForUsers(log, rows[..|rows| - 1], template), template.(user := rows[|rows| - 1]))
  }

  /** One event per row, the same but for the device it names. */
  function ForNodes(log: seq<Event>, rows: seq<Id>, template: Draft): seq<Event> {
    if rows == [] then log
    else Append(ForNodes(log, rows[..|rows| - 1], template), template.(target := NodeRef(rows[|rows| - 1])))
  }

  ghost predicate Ordered(log: seq<Event>) {
    && (forall i, j :: 0 <= i < j < |log| ==> log[i].id < log[j].id)
    && (forall i :: 0 <= i < |log| ==> 0 < log[i].id)
  }

  /** No event for `user` behind cursor `after`. */
  ghost predicate Silent(log: seq<Event>, after: nat, user: Id) {
    forall i :: 0 <= i < |log| && after < log[i].id ==> log[i].body.user != user
  }

  /** No event for `user` from position `from` on. */
  ghost predicate Quiet(log: seq<Event>, from: nat, user: Id) {
    forall i :: from <= i < |log| ==> log[i].body.user != user
  }

  lemma AppendShape(log: seq<Event>, body: Draft)
    requires Ordered(log)
    ensures Ordered(Append(log, body)) && log <= Append(log, body) && |Append(log, body)| == |log| + 1
    ensures LatestId(Append(log, body)) == LatestId(log) + 1
         && Append(log, body)[|log|] == Event(LatestId(log) + 1, body)
  {
  }

  lemma {:induction false} ForUsersShape(log: seq<Event>, rows: seq<Id>, template: Draft)
    requires Ordered(log)
    ensures var out := ForUsers(log, rows, template);
            && log <= out && |out| == |log| + |rows| && Ordered(out) && LatestId(out) == LatestId(log) + |rows|
            && forall i :: 0 <= i < |rows| ==>
                 out[|log| + i] == Event(LatestId(log) + 1 + i, template.(user := rows[i]))
  {
    hide Ordered, Append, LatestId;
    if rows != [] {
      ForUsersShape(log, rows[..|rows| - 1], template);
      AppendShape(ForUsers(log, rows[..|rows| - 1], template), template.(user := rows[|rows| - 1]));
    }
  }

  lemma {:induction false} ForNodesShape(log: seq<Event>, rows: seq<Id>, template: Draft)
    requires Ordered(log)
    ensures var out := ForNodes(log, rows, template);
            && log <= out && |out| == |log| + |rows| && Ordered(out) && LatestId(out) == LatestId(log) + |rows|
            && forall i :: 0 <= i < |rows| ==>
                 out[|log| + i] == Event(LatestId(log) + 1 + i, template.(target := NodeRef(rows[i])))
  {
    hide Ordered, Append, LatestId;
    if rows != [] {
      ForNodesShape(log, rows[..|rows| - 1], template);
      AppendShape(ForNodes(log, rows[..|rows| - 1], template), template.(target := NodeRef(rows[|rows| - 1])));
    }
  }

  // ---- what a transaction has written ------------------------------------------------

  /** Behind the old log stand exactly these events, in this order, with consecutive ids. */
  ghost predicate Adds(before: seq<Event>, after: seq<Event>, bodies: seq<Draft>) {
    && before <= after && |after| == |before| + |bodies|
    && forall i :: |before| <= i < |after| ==>
         after[i] == Event(LatestId(before) + 1 + (i - |before|), bodies[i - |before|])
  }

  /** Behind the old log stands exactly one event for each user, the same but for the user. */
  ghost predicate ToEach(before: seq<Event>, after: seq<Event>, users: set<Id>, template: Draft) {
    && before <= after && |after| == |before| + |users|
    && (forall i :: |before| <= i < |after| ==>
          after[i].body.user in users && after[i].body == template.(user := after[i].body.user))
    && (forall u <- users :: exists i :: |before| <= i < |after| && after[i].body.user == u)
  }

  lemma NothingAdded(log: seq<Event>)
    ensures Adds(log, log, [])
  {
  }

  lemma AppendAdds(before: seq<Event>, log: seq<Event>, bodies: seq<Draft>, body: Draft)
    requires Adds(before, log, bodies)
    ensures Adds(before, Append(log, body), bodies + [body])
  {
    if bodies == [] {
      assert log == before;
    } else {
      assert log[|log| - 1].id == LatestId(before) + |bodies|;
    }
  }

  lemma OneAdded(log: seq<Event>, body: Draft)
    ensures Adds(log, Append(log, body), [body])
  {
  }

  lemma TwoAdded(log: seq<Event>, first: Draft, second: Draft)
    ensures Adds(log, Append(Append(log, first), second), [first, second])
  {
    OneAdded(log, first);
    AppendAdds(log, Append(log, first), [first], second);
    assert [first] + [second] == [first, second];
  }

  lemma {:induction false} DistinctRows(rows: seq<Id>)
    requires forall i, j :: 0 <= i < j < |rows| ==> rows[i] != rows[j]
    ensures |UserSet(rows)| == |rows|
  {
    if rows != [] {
      var rest := rows[..|rows| - 1];
      DistinctRows(rest);
      assert UserSet(rows) == UserSet(rest) + {rows[|rows| - 1]};
    }
  }

  lemma ForUsersToEach(log: seq<Event>, rows: seq<Id>, users: set<Id>, template: Draft)
    requires Ordered(log) && Lists(rows, users)
    ensures ToEach(log, ForUsers(log, rows, template), users, template)
  {
    var after := ForUsers(log, rows, template);
    ForUsersShape(log, rows, template);
    DistinctRows(rows);
    assert UserSet(rows) == users;
    forall i | |log| <= i < |after|
      ensures after[i].body.user in users && after[i].body == template.(user := after[i].body.user)
    {
      assert after[|log| + (i - |log|)].body == template.(user := rows[i - |log|]);
    }
    forall u | u in users
      ensures exists i :: |log| <= i < |after| && after[i].body.user == u
    {
      var i :| 0 <= i < |rows| && rows[i] == u;
      assert after[|log| + i].body.user == u;
    }
  }

  // ---- listing --------------------------------------------------------------------

  /** What the service makes of the requested cursor and limit. */
  function Cursor(after: int): nat {
    if after < 0 then 0 else after
  }

  function Batch(limit: int): (r: nat)
    ensures 1 <= r <= MAX_BATCH
    ensures 1 <= limit <= MAX_BATCH ==> r == limit
  {
    if limit <= 0 || limit > MAX_BATCH then MAX_BATCH else limit
  }

  /** `page` is what `WHERE event_id > after ORDER BY event_id LIMIT limit` returns: in id
      order, nothing twice, and nothing skipped. The order of `table` plays no part. */
  ghost predicate IsPage(table: seq<Event>, after: nat, limit: nat, page: seq<Event>) {
    && Ordered(page) && |page| <= limit
    && (forall e <- page :: e in table && after < e.id)
    && (forall e <- table :: after < e.id ==> e in page || (|page| == limit && LatestId(page) < e.id))
  }

  /** The handler's `next_cursor`: the last id of the page, or the old cursor. */
  function NextCursor(after: nat, page: seq<Event>): nat {
    if page == [] then after else page[|page| - 1].id
  }
}
