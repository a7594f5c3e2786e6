/**
 When a revoked device id can come back: never while its row stands, and from another
 session exactly after a sign-in has purged the row away.
 */
module Returns {
  import opened Records
  import opened Schema
  import opened Accounts
  import opened Sessions
  import opened Devices
  import opened Control
  import Fences
  import Machines
  import Preservation
  import Texts

  // ---- while the row stands -----------------------------------------------------------

  /** A stored, revoked row refuses its device id to every session. */
  lemma RevokedRowRefuses(s: State, n: Id)
    requires n in s.nodes && s.nodes[n].revoked
    ensures forall owner, org, k, r: Registration, now :: r.node == n ==> RegisterNode(s, owner, org, k, r, now).Abort?
  {
    forall owner, org, k, r: Registration, now | r.node == n
      ensures RegisterNode(s, owner, org, k, r, now).Abort?
    {
      hide LiveSession, LiveAgent, CredentialTaken, Canonical;
    }
  }

  /** Main result. As long as the parent session's row is there, a revoked device id is refused
      to every session, in every later state of any run. */
  lemma RefusedWhileSessionStands(states: seq<State>, actions: seq<Action>, i: nat, j: nat, n: Id)
    requires Trace(states, actions) && i <= j < |states|
    requires n in states[i].nodes && states[i].nodes[n].revoked && states[i].nodes[n].session in states[j].sessions
    ensures forall owner, org, k, r: Registration, now ::
              r.node == n ==> RegisterNode(states[j], owner, org, k, r, now).Abort?
  {
    hide Inv, Allowed, Step, RegisterNode;
    Preservation.RunKeeps(states, actions, i);
    Preservation.NodeOf(states[i], n);
    Machines.IssuedSession(states[i], states[i].nodes[n].session);
    assert Fences.Fenced(states[i], n, states[i].nodes[n].session);
    Fences.FenceStays(states, actions, i, j, n, states[i].nodes[n].session);
    RevokedRowRefuses(states[j], n);
  }

  // ---- after a sign-in -----------------------------------------------------------------

  /** The sign-in purges the device's session, and no surviving device has its credential. */
  predicate Purged(s: State, r: Registration, now: Time) {
    && (r.node in s.nodes ==> s.nodes[r.node].session in DeadSessions(s, now))
    && (forall m <- s.nodes.Keys :: s.nodes[m].credential == Digest(r.digest) ==>
          s.nodes[m].session in DeadSessions(s, now))
  }

  /** The sessions after the sign-in: the new one, and the old ones that were not dead. */
  lemma SignedIn(s: State, id: Id, user: Id, token: Id, expires: Time, now: Time, k: Id, owner: Id, later: Time)
    requires Inv(s) && id !in s.issuedSessions && CreateSession(s, id, user, token, expires, now).Commit?
    ensures var t := CreateSession(s, id, user, token, expires, now).state;
            LiveSession(t, k, owner, later) <==>
              || (k == id && owner == user && later < expires)
              || (k !in DeadSessions(s, now) && LiveSession(s, k, owner, later))
  {
    hide Inv, DeadSessions;
    if k in s.sessions {
      Machines.IssuedSession(s, k);
    }
  }

  lemma SignedInNodes(s: State, id: Id, user: Id, token: Id, expires: Time, now: Time, n: Id)
    requires CreateSession(s, id, user, token, expires, now).Commit?
    ensures var t := CreateSession(s, id, user, token, expires, now).state;
            && (n in t.nodes <==> n in s.nodes && s.nodes[n].session !in DeadSessions(s, now))
            && (n in t.nodes ==> t.nodes[n] == s.nodes[n])
  {
    hide DeadSessions;
  }

  lemma SignedInAgents(s: State, id: Id, user: Id, token: Id, expires: Time, now: Time, a: Id, org: Id, owner: Id)
    requires CreateSession(s, id, user, token, expires, now).Commit?
    ensures LiveAgent(CreateSession(s, id, user, token, expires, now).state, a, org, owner)
         <==> LiveAgent(s, a, org, owner)
  {
    hide DeadSessions;
  }

  /** What a registration needs where its device id has no row. */
  lemma FreshRegistration(t: State, owner: Id, org: Id, k: Id, r: Registration, later: Time)
    requires r.node in t.nodes ==> t.nodes[r.node].revoked
    ensures RegisterNode(t, owner, Some(org), k, r, later).Commit? <==>
      && r.node !in t.nodes && 0 < |r.agents| <= MAX_NODE_AGENTS && LiveSession(t, k, owner, later)
      && (forall a <- r.agents :: LiveAgent(t, a, org, owner))
      && !CredentialTaken(t.nodes, Digest(r.digest))
  {
    hide LiveSession, LiveAgent, CredentialTaken, Canonical;
  }

  /**
   Main result. Exactly when a revoked device id comes back: after a committed sign-in a
   registration under that id commits if and only if the sign-in purged the row's own session and
   every device with the same credential, and otherwise asks what any registration asks:
   a live session, one to 32 agents, all live.
   */
  lemma ReturnsExactly(s: State, id: Id, user: Id, token: Id, expires: Time, now: Time, owner: Id, org: Id, k: Id,
      r: Registration, later: Time)
    requires Inv(s) && CreateSession(s, id, user, token, expires, now).Commit?
    requires r.node in s.nodes && s.nodes[r.node].revoked
    ensures var t := CreateSession(s, id, user, token, expires, now).state;
            RegisterNode(t, owner, Some(org), k, r, later).Commit? <==>
              && Purged(s, r, now)
              && 0 < |r.agents| <= MAX_NODE_AGENTS && LiveSession(t, k, owner, later)
              && forall a <- r.agents :: LiveAgent(s, a, org, owner)
  {
    hide Inv, CreateSession, RegisterNode, LiveAgent, LiveSession, DeadSessions;
    var t := CreateSession(s, id, user, token, expires, now).state;
    SignedInNodes(s, id, user, token, expires, now, r.node);
    FreshRegistration(t, owner, org, k, r, later);
    forall a
      ensures LiveAgent(t, a, org, owner) <==> LiveAgent(s, a, org, owner)
    {
      SignedInAgents(s, id, user, token, expires, now, a, org, owner);
    }
    SignedInCredentials(s, id, user, token, expires, now, Digest(r.digest));
  }

  lemma SignedInCredentials(s: State, id: Id, user: Id, token: Id, expires: Time, now: Time, credential: Credential)
    requires CreateSession(s, id, user, token, expires, now).Commit?
    ensures !CredentialTaken(CreateSession(s, id, user, token, expires, now).state.nodes, credential) <==>
              forall m <- s.nodes.Keys :: s.nodes[m].credential == credential ==>
                s.nodes[m].session in DeadSessions(s, now)
  {
    hide CreateSession, DeadSessions;
    var t := CreateSession(s, id, user, token, expires, now).state;
    forall m
      ensures m in t.nodes.Keys <==> m in s.nodes.Keys && s.nodes[m].session !in DeadSessions(s, now)
      ensures m in t.nodes ==> t.nodes[m] == s.nodes[m]
    {
      SignedInNodes(s, id, user, token, expires, now, m);
    }
  }

  // ---- a run that does it ------------------------------------------------------------------

  const ANN := NewAccount(1, "ann", "ann", Hash("secret", 0))
  const LAPTOP := Registration(1, "laptop", 7, [1])
  const AGENT := Agent(1, 1, 1, "agent", "", true)

  /** One account that owns the platform and one organization, and what it has besides. */
  function Home(sessions: map<Id, Session>, agents: map<Id, Agent>, nodes: map<Id, Node>, log: seq<Event>,
      issued: set<Id>, at: Time): State {
    EMPTY.(
      deployment := Some(Deployment(true)),
      users := map[1 := User("ann", "ann", "", true, at)], identities := map[1 := "ann"],
      credentials := map[1 := Hash("secret", 0)], access := map[1 := Access(Owner, true, false, 0)],
      orgs := map[1 := Organization("org", true)], seats := map[Seat(1, 1) := Membership(Owner, true, 0)],
      plans := DefaultPlans(map[], 0),
      sessions := sessions, agents := agents, nodes := nodes, log := log, issuedSessions := issued)
  }

  function Laptop(session: Id, at: Time, revoked: bool): Node {
    Node(1, 1, session, Digest(7), "laptop", [1], at, revoked)
  }

  const FOUND := DoCreateOwner(ANN, 1, "org", 0)
  const SIGN_IN := DoCreateSession(1, 1, 1, 10, 0)
  const PUBLISH := DoPublish(1, Some(1), 1, 1, "agent", "")
  const REGISTER := DoRegisterNode(1, Some(1), 1, LAPTOP, 0)
  const REVOKE := DoRevokeNode(1, Some(1), 1, 1, 0)
  const SIGN_IN_AGAIN := DoCreateSession(2, 1, 2, 20, 10)
  const REGISTER_AGAIN := DoRegisterNode(1, Some(1), 2, LAPTOP, 10)

  function Signed(): State {
    Home(map[1 := Session(1, 1, 10, false)], map[], map[], [], {1}, 0)
  }

  function Registered(): State {
    Home(map[1 := Session(1, 1, 10, false)], map[1 := AGENT], map[1 := Laptop(1, 0, false)], [], {1}, 0)
  }

  function Revoked(): State {
    Home(map[1 := Session(1, 1, 10, false)], map[1 := AGENT], map[1 := Laptop(1, 0, true)],
      [Event(1, NodeDraft(1, 1, 0))], {1}, 0)
  }

  function SignedAgain(): State {
    Home(map[2 := Session(1, 2, 20, false)], map[1 := AGENT], map[], [Event(1, NodeDraft(1, 1, 0))], {1, 2}, 10)
  }

  function Returned(): State {
    Home(map[2 := Session(1, 2, 20, false)], map[1 := AGENT], map[1 := Laptop(2, 10, false)],
      [Event(1, NodeDraft(1, 1, 0))], {1, 2}, 10)
  }

  lemma AnnAllowed()
    ensures AccountAllowed(ANN)
  {
    Texts.Utf8AtMost("ann");
    assert !Texts.IsSpace("ann"[0]);
    hide Texts.Utf8Length;
  }

  lemma Founds()
    ensures CreateOwner(EMPTY, ANN, 1, "org", 0) == Commit(Home(map[], map[], map[], [], {}, 0))
  {
    AnnAllowed();
    hide AccountAllowed, DefaultPlans;
  }

  lemma SignsIn()
    ensures CreateSession(Home(map[], map[], map[], [], {}, 0), 1, 1, 1, 10, 0) == Commit(Signed())
  {
    hide DefaultPlans;
    var s := Home(map[], map[], map[], [], {}, 0);
    assert Purge(s, 0) == s;
  }

  lemma Publishes()
    ensures UpsertAgent(Signed(), 1, Some(1), 1, 1, "agent", "") == Commit(Signed().(agents := map[1 := AGENT]))
  {
    hide DefaultPlans;
    assert PutAgent(map[], 1, AGENT) == map[1 := AGENT];
  }

  lemma OneAgent()
    ensures Canonical([1]) == [1]
  {
    assert [1][..0] == [];
    assert Canonical([]) == [];
  }

  lemma Registers()
    ensures RegisterNode(Signed().(agents := map[1 := AGENT]), 1, Some(1), 1, LAPTOP, 0) == Commit(Registered())
  {
    hide DefaultPlans, Canonical;
    OneAgent();
    assert LiveAgent(Signed().(agents := map[1 := AGENT]), 1, 1, 1);
  }

  lemma RevokesIt()
    ensures RevokeNode(Registered(), 1, Some(1), 1, 1, 0) == Commit(Revoked())
  {
    hide DefaultPlans;
  }

  lemma OldSessionIsDead()
    ensures DeadSessions(Revoked(), 10) == {1}
  {
    hide DefaultPlans;
    var s := Revoked();
    forall k
      ensures k in DeadSessions(s, 10) <==> k == 1
    {
      assert k in s.sessions.Keys <==> k == 1;
    }
  }

  lemma OldSessionGoes()
    ensures Purge(Revoked(), 10) == Revoked().(sessions := map[], nodes := map[])
  {
    hide DefaultPlans, DeadSessions;
    OldSessionIsDead();
  }

  lemma SignsInAgain()
    ensures CreateSession(Revoked(), 2, 1, 2, 20, 10) == Commit(SignedAgain())
  {
    hide DefaultPlans, Purge;
    OldSessionGoes();
  }

  lemma RegistersAgain()
    ensures RegisterNode(SignedAgain(), 1, Some(1), 2, LAPTOP, 10) == Commit(Returned())
  {
    hide DefaultPlans, Canonical;
    OneAgent();
    assert LiveAgent(SignedAgain(), 1, 1, 1);
  }

  lemma StepFounds()
    ensures Allowed(EMPTY, FOUND) && Step(EMPTY, FOUND) == Home(map[], map[], map[], [], {}, 0)
  {
    hide DefaultPlans, CreateOwner;
    Founds();
  }

  lemma StepSignsIn()
    ensures Allowed(Home(map[], map[], map[], [], {}, 0), SIGN_IN)
         && Step(Home(map[], map[], map[], [], {}, 0), SIGN_IN) == Signed()
  {
    hide DefaultPlans, CreateSession;
    SignsIn();
  }

  lemma StepPublishes()
    ensures Allowed(Signed(), PUBLISH) && Step(Signed(), PUBLISH) == Signed().(agents := map[1 := AGENT])
  {
    hide DefaultPlans, UpsertAgent;
    Publishes();
  }

  lemma StepRegisters()
    ensures Allowed(Signed().(agents := map[1 := AGENT]), REGISTER)
         && Step(Signed().(agents := map[1 := AGENT]), REGISTER) == Registered()
  {
    hide DefaultPlans, RegisterNode;
    Registers();
  }

  lemma StepRevokesIt()
    ensures Allowed(Registered(), REVOKE) && Step(Registered(), REVOKE) == Revoked()
  {
    hide DefaultPlans, RevokeNode;
    RevokesIt();
  }

  lemma StepSignsInAgain()
    ensures Allowed(Revoked(), SIGN_IN_AGAIN) && Step(Revoked(), SIGN_IN_AGAIN) == SignedAgain()
  {
    hide DefaultPlans, CreateSession;
    SignsInAgain();
  }

  lemma StepRegistersAgain()
    ensures Allowed(SignedAgain(), REGISTER_AGAIN) && Step(SignedAgain(), REGISTER_AGAIN) == Returned()
  {
    hide DefaultPlans, RegisterNode;
    RegistersAgain();
  }

  lemma StartsSound()
    ensures Inv(EMPTY)
  {
  }

  /** What the run is about: the registration of the fifth state is fenced in the sixth and its old
      credential is exchanged in the last, under another session. */
  lemma RevokedAndBack()
    ensures Machines.ExchangeAdmits(Registered(), 1) && Fences.Fenced(Revoked(), 1, 1)
         && !Machines.ExchangeAdmits(Revoked(), 1)
    ensures Machines.ExchangeAdmits(Returned(), 1) && Returned().nodes[1].credential == Registered().nodes[1].credential
  {
    hide DefaultPlans;
    assert LiveAgent(Returned(), 1, 1, 1) && LiveAgent(Registered(), 1, 1, 1);
  }

  function RunActions(): seq<Action> {
    [FOUND, SIGN_IN, PUBLISH, REGISTER, REVOKE, SIGN_IN_AGAIN, REGISTER_AGAIN]
  }

  function RunStates(): seq<State> {
    [EMPTY, Home(map[], map[], map[], [], {}, 0), Signed(), Signed().(agents := map[1 := AGENT]), Registered(),
     Revoked(), SignedAgain(), Returned()]
  }

  lemma RunStep(i: nat)
    requires i < 7
    ensures Allowed(RunStates()[i], RunActions()[i]) && RunStates()[i + 1] == Step(RunStates()[i], RunActions()[i])
  {
    hide Inv, Allowed, Step, Home, Signed, Registered, Revoked, SignedAgain, Returned;
    if i == 0 {
      StepFounds();
    } else if i == 1 {
      StepSignsIn();
    } else if i == 2 {
      StepPublishes();
    } else if i == 3 {
      StepRegisters();
    } else if i == 4 {
      StepRevokesIt();
    } else if i == 5 {
      StepSignsInAgain();
    } else {
      StepRegistersAgain();
    }
  }

  /**
   Main result. The input: from empty tables, a run in which a device is registered and revoked,
   and after the next sign-in registered again under the same id and with the same credential.
   */
  lemma DeviceReturns()
    ensures Trace(RunStates(), RunActions())
  {
    StartsSound();
    assert |RunStates()| == 8 && |RunActions()| == 7 && RunStates()[0] == EMPTY;
    hide Inv, Allowed, Step, RunStates, RunActions;
    forall i | 0 <= i < 7
      ensures Allowed(RunStates()[i], RunActions()[i]) && RunStates()[i + 1] == Step(RunStates()[i], RunActions()[i])
    {
      RunStep(i);
    }
  }
}
