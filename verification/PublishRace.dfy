/**
 Publishing an agent beside the revocation of its owner's seat, statement by statement, as a
 database with row locks interleaves them. Publishing takes the deployment row
 (internal/storage/auth/agent.go); a member update takes it too (member.go), but leaving and
 dissolving take only the control_state row (organization.go).
 */
module PublishRace {
  import opened Records

  /** The unique key of an agent row: the owner's seat and the source. */
  datatype Source = Source(seat: Seat, id: Id)

  /** A publication of a source: it waits for the deployment row, holds it, or has seen the seat. */
  datatype Phase = Waiting | Locked | Checked
  datatype Publisher = Publisher(source: Source, phase: Phase)

  /** A revocation of a seat; `locks` says whether it takes the deployment row as well. Once swept,
      `targets` are the agent rows its UPDATE has found, active or not, and holds locked. */
  datatype Revoker = Revoker(seat: Seat, locks: bool, swept: Option<set<Source>>)

  /** `seats` are the committed active seats, `agents` the committed agent rows with their status. */
  datatype World = World(
    seats: set<Seat>, agents: map<Source, bool>, deployment: Option<Id>, control: Option<Id>,
    publishers: map<Id, Publisher>, revokers: map<Id, Revoker>)

  const START := World({}, map[], None, None, map[], map[])

  datatype Move =
    | Begin(x: Id, source: Source)
    | Lock(x: Id)
    | Check(x: Id)
    | Publish(x: Id)
    | Join(seat: Seat)
    | Revoke(y: Id, seat: Seat, locks: bool)
    | Sweep(y: Id)
    | Finish(y: Id)

  /** A revocation under way has updated this row and not yet ended. */
  predicate RowLocked(w: World, source: Source) {
    exists y <- w.revokers.Keys :: w.revokers[y].swept.Some? && source in w.revokers[y].swept.value
  }

  /** When a step can happen; an update of an existing agent row waits for its lock. */
  predicate Enabled(w: World, m: Move) {
    match m
    case Begin(x, _) => x !in w.publishers && x !in w.revokers
    case Lock(x) => x in w.publishers && w.publishers[x].phase == Waiting && w.deployment == None
    case Check(x) => x in w.publishers && w.publishers[x].phase == Locked
    case Publish(x) => x in w.publishers && w.publishers[x].phase == Checked && !RowLocked(w, w.publishers[x].source)
    case Join(_) => w.control == None
    case Revoke(y, _, locks) =>
      y !in w.revokers && y !in w.publishers && w.control == None && (locks ==> w.deployment == None)
    case Sweep(y) => y in w.revokers && w.revokers[y].swept == None
    case Finish(y) => y in w.revokers && w.revokers[y].swept != None
  }

  /** All agent rows of a seat. */
  function AgentsOf(w: World, seat: Seat): set<Source> {
    set a <- w.agents.Keys | a.seat == seat
  }

  function Freed(holder: Option<Id>, x: Id): Option<Id> {
    if holder == Some(x) then None else holder
  }

  function SwitchedOff(agents: map<Source, bool>, targets: set<Source>): map<Source, bool> {
    map a <- agents :: agents[a] && a !in targets
  }

  function Do(w: World, m: Move): World
    requires Enabled(w, m)
  {
    match m
    case Begin(x, source) => w.(publishers := w.publishers[x := Publisher(source, Waiting)])
    case Lock(x) =>
      w.(deployment := Some(x), publishers := w.publishers[x := w.publishers[x].(phase := Locked)])
    case Check(x) =>
      if w.publishers[x].source.seat in w.seats then
        w.(publishers := w.publishers[x := w.publishers[x].(phase := Checked)])
      else w.(publishers := w.publishers - {x}, deployment := Freed(w.deployment, x))
    case Publish(x) =>
      w.(agents := w.agents[w.publishers[x].source := true], publishers := w.publishers - {x},
         deployment := Freed(w.deployment, x))
    case Join(seat) => w.(seats := w.seats + {seat})
    case Revoke(y, seat, locks) =>
      w.(control := Some(y), deployment := if locks then Some(y) else w.deployment,
         revokers := w.revokers[y := Revoker(seat, locks, None)])
    case Sweep(y) =>
      w.(revokers := w.revokers[y := w.revokers[y].(swept := Some(AgentsOf(w, w.revokers[y].seat)))])
    case Finish(y) =>
      var r := w.revokers[y];
      World(w.seats - {r.seat}, SwitchedOff(w.agents, r.swept.value),
        Freed(w.deployment, y), Freed(w.control, y), w.publishers, w.revokers - {y})
  }

  ghost predicate Runs(worlds: seq<World>, moves: seq<Move>) {
    && |worlds| == |moves| + 1 && worlds[0] == START
    && forall i :: 0 <= i < |moves| ==> Enabled(worlds[i], moves[i]) && worlds[i + 1] == Do(worlds[i], moves[i])
  }

  // ---- when a published agent has its seat -----------------------------------------------

  /** Every active agent has its seat, and a revocation under way has found every row of its seat. */
  ghost predicate Backed(w: World) {
    && (forall a <- w.agents.Keys :: w.agents[a] ==> a.seat in w.seats)
    && (forall y <- w.revokers.Keys :: w.revokers[y].swept.Some? ==>
          AgentsOf(w, w.revokers[y].seat) <= w.revokers[y].swept.value)
  }

  /** The publication comes too late: its seat is gone, or a revocation has already looked for agents. */
  ghost predicate TooLate(w: World, seat: Seat) {
    seat !in w.seats || exists y <- w.revokers.Keys :: w.revokers[y].seat == seat && w.revokers[y].swept.Some?
  }

  /** One revoker at a time, the one that holds the control_state row; it finds rows of its seat only. */
  ghost predicate Orderly(w: World) {
    && (forall y <- w.revokers.Keys :: w.control == Some(y))
    && (forall x <- w.publishers.Keys :: x !in w.revokers)
    && (forall y <- w.revokers.Keys :: w.revokers[y].swept.Some? ==>
          OfSeat(w.revokers[y].swept.value, w.revokers[y].seat))
  }

  ghost predicate OfSeat(sources: set<Source>, seat: Seat) {
    forall a <- sources :: a.seat == seat
  }

  lemma SameAgents(w: World, t: World)
    requires t.agents == w.agents
    ensures forall seat :: AgentsOf(t, seat) == AgentsOf(w, seat)
  {
  }

  lemma QuietBacked(w: World, m: Move)
    requires Backed(w) && Enabled(w, m) && !m.Publish? && !m.Finish?
    ensures Backed(Do(w, m))
  {
    SameAgents(w, Do(w, m));
    hide AgentsOf, RowLocked;
  }

  lemma OneMoreAgent(w: World, x: Id)
    requires Enabled(w, Publish(x))
    ensures forall seat :: AgentsOf(Do(w, Publish(x)), seat) ==
              AgentsOf(w, seat) + if seat == w.publishers[x].source.seat then {w.publishers[x].source} else {}
  {
  }

  lemma PublishBacked(w: World, x: Id)
    requires Backed(w) && Orderly(w) && Enabled(w, Publish(x))
    ensures Backed(Do(w, Publish(x))) <==> !TooLate(w, w.publishers[x].source.seat)
  {
    OneMoreAgent(w, x);
    var t := Do(w, Publish(x));
    var mine := w.publishers[x].source;
    assert mine in t.agents.Keys && t.agents[mine] && mine in AgentsOf(t, mine.seat);
    hide AgentsOf;
    if TooLate(w, mine.seat) && mine.seat in w.seats {
      var y :| y in w.revokers.Keys && w.revokers[y].seat == mine.seat && w.revokers[y].swept.Some?;
      assert mine !in t.revokers[y].swept.value;
    }
  }

  /**
   What an existing source changes: its row is locked as soon as a revocation of its seat has
   looked for agents, so its publication waits for exactly those, and comes too late only once
   the seat is gone. A new source has no row to wait for.
   */
  lemma ExistingSourceWaits(w: World, x: Id)
    requires Backed(w) && Orderly(w) && x in w.publishers && w.publishers[x].phase == Checked
    requires w.publishers[x].source in w.agents
    ensures Enabled(w, Publish(x)) <==>
              !exists y <- w.revokers.Keys :: w.revokers[y].seat == w.publishers[x].source.seat
                && w.revokers[y].swept.Some?
    ensures Enabled(w, Publish(x)) ==>
              (TooLate(w, w.publishers[x].source.seat) <==> w.publishers[x].source.seat !in w.seats)
  {
    var mine := w.publishers[x].source;
    assert mine in AgentsOf(w, mine.seat);
  }

  lemma FinishBacked(w: World, y: Id)
    requires Backed(w) && Orderly(w) && Enabled(w, Finish(y))
    ensures Backed(Do(w, Finish(y)))
  {
    var t := Do(w, Finish(y));
    forall a | a in t.agents.Keys && t.agents[a]
      ensures a.seat in t.seats
    {
      assert y in w.revokers.Keys && a in w.agents.Keys;
      assert a !in AgentsOf(w, w.revokers[y].seat);
    }
    assert forall z :: z in t.revokers ==> z in w.revokers.Keys && z != y;
  }

  /** Main result. The only step that can leave an agent without its seat is a publication that
      comes too late, and every such publication does. */
  lemma BackedExactly(w: World, m: Move)
    requires Backed(w) && Orderly(w) && Enabled(w, m)
    ensures Backed(Do(w, m)) <==> !(m.Publish? && TooLate(w, w.publishers[m.x].source.seat))
  {
    hide Backed, Orderly, TooLate, Do;
    if m.Publish? {
      PublishBacked(w, m.x);
    } else if m.Finish? {
      FinishBacked(w, m.y);
    } else {
      QuietBacked(w, m);
    }
  }

  lemma DoOrderly(w: World, m: Move)
    requires Orderly(w) && Enabled(w, m)
    ensures Orderly(Do(w, m))
  {
    hide RowLocked;
    var t := Do(w, m);
    forall y | y in t.revokers.Keys
      ensures t.control == Some(y)
      ensures t.revokers[y].swept.Some? ==> OfSeat(t.revokers[y].swept.value, t.revokers[y].seat)
    {
      assert y in w.revokers.Keys || m.Revoke?;
    }
    forall x | x in t.publishers.Keys
      ensures x !in t.revokers
    {
      assert x in w.publishers.Keys || m.Begin?;
    }
  }

  // ---- when every revocation takes the deployment row ----------------------------------------

  /** The row excludes: a publication under way holds it, and so does a revocation. */
  ghost predicate Guarded(w: World) {
    && (forall x <- w.publishers.Keys :: w.publishers[x].phase != Waiting ==> w.deployment == Some(x))
    && (forall x <- w.publishers.Keys :: w.publishers[x].phase == Checked ==> w.publishers[x].source.seat in w.seats)
    && (forall y <- w.revokers.Keys :: w.revokers[y].locks && w.deployment == Some(y))
    && (forall x <- w.publishers.Keys :: x !in w.revokers)
  }

  lemma DoGuarded(w: World, m: Move)
    requires Guarded(w) && Enabled(w, m) && (m.Revoke? ==> m.locks)
    ensures Guarded(Do(w, m))
  {
    var t := Do(w, m);
    forall x | x in t.publishers.Keys
      ensures t.publishers[x].phase != Waiting ==> t.deployment == Some(x)
      ensures t.publishers[x].phase == Checked ==> t.publishers[x].source.seat in t.seats
      ensures x !in t.revokers
    {
      assert x in w.publishers.Keys || m.Begin?;
      if m.Finish? {
        assert m.y in w.revokers.Keys;
      }
    }
    forall y | y in t.revokers.Keys
      ensures t.revokers[y].locks && t.deployment == Some(y)
    {
      assert y in w.revokers.Keys || m.Revoke?;
    }
  }

  lemma NeverTooLate(w: World, x: Id)
    requires Guarded(w) && Enabled(w, Publish(x))
    ensures !TooLate(w, w.publishers[x].source.seat)
  {
    assert x in w.publishers.Keys;
    assert forall y :: y in w.revokers.Keys ==> w.deployment == Some(y);
  }

  /** Main result. In every run in which no publication comes too late every published agent has its
      seat; and none comes too late if every revocation takes the deployment row. */
  lemma {:induction false} RunBacked(worlds: seq<World>, moves: seq<Move>, i: nat)
    requires Runs(worlds, moves) && i < |worlds|
    requires (forall k :: 0 <= k < i && moves[k].Revoke? ==> moves[k].locks)
          || (forall k :: 0 <= k < i && moves[k].Publish? ==>
                !TooLate(worlds[k], worlds[k].publishers[moves[k].x].source.seat))
    ensures Backed(worlds[i]) && Orderly(worlds[i])
    ensures (forall k :: 0 <= k < i && moves[k].Revoke? ==> moves[k].locks) ==> Guarded(worlds[i])
  {
    hide Enabled, Do, TooLate;
    if i > 0 {
      assert Enabled(worlds[i - 1], moves[i - 1]);
      RunBacked(worlds, moves, i - 1);
      hide Backed, Orderly, Guarded;
      DoOrderly(worlds[i - 1], moves[i - 1]);
      if forall k :: 0 <= k < i && moves[k].Revoke? ==> moves[k].locks {
        DoGuarded(worlds[i - 1], moves[i - 1]);
        if moves[i - 1].Publish? {
          NeverTooLate(worlds[i - 1], moves[i - 1].x);
        }
      }
      BackedExactly(worlds[i - 1], moves[i - 1]);
    }
  }

  // ---- runs in which one comes too late --------------------------------------------------------

  const SEAT := Seat(0, 0)
  const SOURCE := Source(SEAT, 0)

  /** A member leaves, without the deployment row, between the check and the insert. */
  function LateMoves(): seq<Move> {
    [Join(SEAT), Begin(1, SOURCE), Lock(1), Check(1), Revoke(2, SEAT, false), Sweep(2), Finish(2), Publish(1)]
  }

  function Checking(agents: map<Source, bool>): World {
    START.(seats := {SEAT}, agents := agents, deployment := Some(1), publishers := map[1 := Publisher(SOURCE, Checked)])
  }

  function LateWorlds(): seq<World> {
    var seated := START.(seats := {SEAT});
    var waiting := seated.(publishers := map[1 := Publisher(SOURCE, Waiting)]);
    var locked := waiting.(deployment := Some(1), publishers := map[1 := Publisher(SOURCE, Locked)]);
    var checked := Checking(map[]);
    var leaving := checked.(control := Some(2), revokers := map[2 := Revoker(SEAT, false, None)]);
    var swept := leaving.(revokers := map[2 := Revoker(SEAT, false, Some({}))]);
    var left := checked.(seats := {});
    [START, seated, waiting, locked, checked, leaving, swept, left,
     left.(agents := map[SOURCE := true], publishers := map[], deployment := None)]
  }

  /** The input for a new source: everything has ended, and an agent is active without its owner's seat. */
  lemma LeavingOvertakes()
    ensures Runs(LateWorlds(), LateMoves())
    ensures var w := LateWorlds()[8];
            w.publishers == map[] && w.revokers == map[] && w.agents == map[SOURCE := true] && w.seats == {}
  {
    forall i | 0 <= i < 8
      ensures Enabled(LateWorlds()[i], LateMoves()[i]) && LateWorlds()[i + 1] == Do(LateWorlds()[i], LateMoves()[i])
    {
      LateStep(i);
    }
  }

  lemma LateStep(i: nat)
    requires i < 8
    ensures Enabled(LateWorlds()[i], LateMoves()[i]) && LateWorlds()[i + 1] == Do(LateWorlds()[i], LateMoves()[i])
  {
    if i == 5 {
      assert AgentsOf(LateWorlds()[5], SEAT) == {};
    }
  }

  /** The agent was published before, and a leave has found its row. */
  function RowFound(): World {
    Checking(map[SOURCE := true]).(
      control := Some(2), revokers := map[2 := Revoker(SEAT, false, Some({SOURCE}))])
  }

  lemma FindRow()
    ensures var checked := Checking(map[SOURCE := true]);
            && Backed(checked) && Orderly(checked)
            && Enabled(checked, Revoke(2, SEAT, false))
            && var leaving := Do(checked, Revoke(2, SEAT, false));
            Enabled(leaving, Sweep(2)) && Do(leaving, Sweep(2)) == RowFound()
  {
    var leaving := Do(Checking(map[SOURCE := true]), Revoke(2, SEAT, false));
    assert AgentsOf(leaving, SEAT) == {SOURCE};
  }

  /** The input for an existing source: its publication waits for the leave to end, then switches the
      agent on again without the seat. */
  lemma LeavingOvertakesUpdate()
    ensures var checked := Checking(map[SOURCE := true]);
            && Backed(checked) && Orderly(checked)
            && Enabled(checked, Revoke(2, SEAT, false))
            && var leaving := Do(checked, Revoke(2, SEAT, false));
            Enabled(leaving, Sweep(2)) && Do(leaving, Sweep(2)) == RowFound()
    ensures !Enabled(RowFound(), Publish(1)) && Enabled(RowFound(), Finish(2))
    ensures var left := Do(RowFound(), Finish(2));
            && Backed(left) && left.agents == map[SOURCE := false] && Enabled(left, Publish(1))
            && var late := Do(left, Publish(1));
            late.publishers == map[] && late.revokers == map[] && late.agents == map[SOURCE := true] && late.seats == {}
  {
    FindRow();
    assert RowLocked(RowFound(), SOURCE) by {
      assert 2 in RowFound().revokers.Keys;
    }
    assert SwitchedOff(RowFound().agents, {SOURCE}) == map[SOURCE := false];
  }
}
