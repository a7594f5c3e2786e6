/**
 `ChangePassword` as it really runs: one call is a sequence of separate database steps,
 and between any two of them other calls, settles and every other transaction of the
 authority may run. Sources: internal/service/auth/user.go and
 internal/storage/auth/password.go.
 */
module PasswordProtocol {
  import opened Records
  import opened Schema
  import opened Control
  import opened Frames
  import Accounts
  import InvalidationLog
  import Organizations
  import Preservation
  import Sessions

  // ---- calls ----------------------------------------------------------------------

  /** What the caller sends: the request key, the current password, the hash of the new one
      (salted, or None if hashing failed), and whether the input passed validation. */
  datatype Input = Input(key: Request, current: string, next: Option<Hash>, wellFormed: bool)

  datatype Rejection = RequestInvalid | WrongPassword | HashFailed

  datatype Answer =
    | Changed
    | RequestNotApplied
    | Rejected(why: Rejection)
    | Failed
    | NoDurableOutcome

  /** Where a call stands; `Resolving` remembers the rejection it would report. */
  datatype Phase =
    | Looking
    | Reading
    | Trying(verified: Hash)
    | Rejecting(why: Rejection)
    | Resolving(rejection: Option<Rejection>)
    | Done(answer: Answer)

  datatype Call = Call(input: Input, phase: Phase)

  /** One credential swap that happened. */
  datatype Swap = Swap(key: Request, next: Hash)

  datatype World = World(store: State, calls: map<Id, Call>, swaps: seq<Swap>)

  datatype Move =
    | Open(call: Id, input: Input)
    /** The next database step of a call; `rows` and `now` matter to the swap only. */
    | Advance(call: Id, rows: seq<Id>, now: Time)
    /** The database step fails, or its answer is lost after it took effect. */
    | Break(call: Id, rows: seq<Id>, now: Time, applied: bool)
    /** Any other transaction, settles by other callers included. */
    | Elsewhere(action: Action)

  // ---- one database step -------------------------------------------------------------

  function Outcome(s: State, key: Request): Option<Effect> {
    if key in s.receipts then Some(s.receipts[key]) else None
  }

  /** The first read: a known outcome answers at once. */
  function Look(s: State, input: Input): Phase {
    match Outcome(s, input.key)
    case Some(Committed) => Done(Changed)
    case Some(NotApplied) => Done(RequestNotApplied)
    case None => if input.wellFormed then Reading else Rejecting(Rejection.RequestInvalid)
  }

  function Read(s: State, input: Input): Phase {
    var user := input.key.user;
    if user !in s.users || user !in s.credentials then Rejecting(WrongPassword)
    else if !Matches(input.current, s.credentials[user]) || !s.users[user].active then Rejecting(WrongPassword)
    else if input.next.None? then Rejecting(HashFailed)
    else Trying(s.credentials[user])
  }

  function TryTx(s: State, call: Call, rows: seq<Id>, now: Time): Tx
    requires call.phase.Trying? && call.input.next.Some?
  {
    Sessions.TryCommitPassword(s, call.input.key, call.phase.verified, call.input.next.value, rows, now)
  }

  function Try(tx: Tx): Phase {
    match tx
    case Commit(_) => Done(Changed)
    case Abort(ReceiptExists) => Resolving(None)
    case Abort(CredentialChanged) => Rejecting(WrongPassword)
    case Abort(_) => Done(Failed)
  }

  function Reject(tx: Tx, why: Rejection): Phase {
    if tx.Commit? then Resolving(Some(why)) else Done(Failed)
  }

  function Resolve(s: State, input: Input, rejection: Option<Rejection>): Phase {
    match Outcome(s, input.key)
    case Some(Committed) => Done(Changed)
    case Some(NotApplied) => Done(if rejection.Some? then Rejected(rejection.value) else RequestNotApplied)
    case None => Done(NoDurableOutcome)
  }

  /** Store after the step of a call in its present phase. */
  function StoreAfter(s: State, call: Call, rows: seq<Id>, now: Time): State {
    match call.phase
    case Trying(_) => if call.input.next.Some? then TryTx(s, call, rows, now).After(s) else s
    case Rejecting(_) => Sessions.SettlePassword(s, call.input.key).After(s)
    case _ => s
  }

  function PhaseAfter(s: State, call: Call, rows: seq<Id>, now: Time): Phase {
    match call.phase
    case Looking => Look(s, call.input)
    case Reading => Read(s, call.input)
    case Trying(_) => if call.input.next.Some? then Try(TryTx(s, call, rows, now)) else Done(Failed)
    case Rejecting(why) => Reject(Sessions.SettlePassword(s, call.input.key), why)
    case Resolving(rejection) => Resolve(s, call.input, rejection)
    case Done(_) => call.phase
  }

  predicate Swaps(s: State, call: Call, rows: seq<Id>, now: Time) {
    call.phase.Trying? && call.input.next.Some? && TryTx(s, call, rows, now).Commit?
  }

  function SwapsAfter(w: World, call: Call, rows: seq<Id>, now: Time): seq<Swap> {
    if Swaps(w.store, call, rows, now) then w.swaps + [Swap(call.input.key, call.input.next.value)] else w.swaps
  }

  ghost predicate Enabled(w: World, m: Move) {
    match m
    case Open(c, _) => c !in w.calls
    case Advance(c, rows, _) => c in w.calls && Lists(rows, LiveNodesOf(w.store.nodes, w.calls[c].input.key.user))
    case Break(c, rows, _, _) =>
      c in w.calls && !w.calls[c].phase.Done? && Lists(rows, LiveNodesOf(w.store.nodes, w.calls[c].input.key.user))
    case Elsewhere(a) => !a.DoTryPassword? && Allowed(w.store, a)
  }

  ghost function Do(w: World, m: Move): World
    requires Enabled(w, m)
  {
    match m
    case Open(c, input) => w.(calls := w.calls[c := Call(input, Looking)])
    case Advance(c, rows, now) =>
      var call := w.calls[c];
      World(StoreAfter(w.store, call, rows, now), w.calls[c := call.(phase := PhaseAfter(w.store, call, rows, now))],
        SwapsAfter(w, call, rows, now))
    case Break(c, rows, now, applied) =>
      var call := w.calls[c];
      if applied then
        World(StoreAfter(w.store, call, rows, now), w.calls[c := call.(phase := Done(Failed))],
          SwapsAfter(w, call, rows, now))
      else w.(calls := w.calls[c := call.(phase := Done(Failed))])
    case Elsewhere(a) => w.(store := Step(w.store, a))
  }

  ghost predicate Runs(worlds: seq<World>, moves: seq<Move>) {
    && |worlds| == |moves| + 1 && Inv(worlds[0].store) && worlds[0].calls == map[] && worlds[0].swaps == []
    && forall i :: 0 <= i < |moves| ==> Enabled(worlds[i], moves[i]) && worlds[i + 1] == Do(worlds[i], moves[i])
  }

  // ---- what a step does to receipts and credentials --------------------------------------

  /** Receipts are only added, and a stored credential stays what it is. */
  ghost predicate Kept(s: State, t: State, key: Request, user: Id) {
    && (key in s.receipts ==> key in t.receipts && t.receipts[key] == s.receipts[key])
    && (key !in s.receipts && key in t.receipts ==> t.receipts[key] == NotApplied)
    && (user in s.credentials ==> user in t.credentials && t.credentials[user] == s.credentials[user])
  }

  lemma SameKept(s: State, t: State, key: Request, user: Id)
    requires t.receipts == s.receipts && t.credentials == s.credentials
    ensures Kept(s, t, key, user)
  {
  }

  lemma NewAccountKept(s: State, a: Accounts.NewAccount, role: Role, webDisabled: bool, now: Time,
      key: Request, user: Id)
    requires a.user !in s.credentials
    ensures Kept(s, Accounts.AddAccount(s, a, role, webDisabled, now), key, user)
  {
  }

  lemma AcceptKept(s: State, i: Id, a: Accounts.NewAccount, now: Time, key: Request, user: Id)
    requires i in s.invitations && a.user !in s.credentials
    ensures var inv := s.invitations[i];
            Kept(s, Organizations.Accept(Organizations.Enter(Accounts.AddAccount(s, a, Member, true, now), inv.org,
              a.user, inv.role, now), i, a.user, now), key, user)
  {
  }

  lemma AccountKept(s: State, a: Action, key: Request, user: Id)
    requires Inv(s) && Allowed(s, a) && (a.DoRegister? || a.DoCreateMember? || a.DoAccept?)
    ensures Kept(s, Step(s, a), key, user)
  {
    hide Inv, Kept, UsernameTaken, Administers, ActiveOrg, Accounts.AddAccount, Organizations.Enter,
      Organizations.Accept;
    SameKept(s, s, key, user);
    NoCredential(s, a.account.user);
    if a.DoRegister? {
      NewAccountKept(s, a.account, Member, false, a.now, key, user);
    } else if a.DoCreateMember? {
      NewAccountKept(s, a.account, a.role, false, a.now, key, user);
    } else if Execute(s, a).Commit? {
      AcceptKept(s, InvitationByToken(s.invitations, a.token).value, a.account, a.now, key, user);
    }
  }

  lemma NoCredential(s: State, user: Id)
    requires Inv(s) && user !in s.users
    ensures user !in s.credentials
  {
    Preservation.AccountAccess(s);
    hide Inv;
    assert user !in s.users.Keys;
  }

  lemma ProfileKept(s: State, a: Action, key: Request, user: Id)
    requires a.DoUpdateAccess? || a.DoUpdateAvatar? || a.DoCreateSession? || a.DoRevokeSession?
    ensures Kept(s, Step(s, a), key, user)
  {
    hide Kept, Administers, Organizations.RenamedUsers, Accounts.AccessLog, Accounts.RevokeSessionsOf,
      Organizations.ProfileLog, Accounts.AccessVersion, Sessions.DeadSessions, InvalidationLog.Append;
    SameKept(s, Step(s, a), key, user);
  }

  lemma SettleKept(s: State, key': Request, key: Request, user: Id)
    ensures Kept(s, Sessions.SettlePassword(s, key').After(s), key, user)
  {
  }

  lemma FoundedKept(s: State, t: State, a: Action, key: Request, user: Id)
    requires Founded(s, t, a) && Founding(a)
    ensures Kept(s, t, key, user)
  {
    hide Kept;
    BlankKept(s, t, key, user);
  }

  lemma FoundingKept(s: State, a: Action, key: Request, user: Id)
    requires Inv(s) && Founding(a)
    ensures Kept(s, Step(s, a), key, user)
  {
    hide Inv, Kept, Step, Execute, Founded;
    SameKept(s, s, key, user);
    FoundedFrame(s, a);
    if Step(s, a) != s {
      FoundedKept(s, Step(s, a), a, key, user);
    }
  }

  lemma BlankKept(s: State, t: State, key: Request, user: Id)
    requires s.receipts == map[] && s.credentials == map[] && t.receipts == map[]
    ensures Kept(s, t, key, user)
  {
  }

  lemma OthersKept(s: State, t: State, key: Request, user: Id)
    requires DevicesOnly(s, t) || BillingOnly(s, t) || InvitationsOnly(s, t) || MembershipsOnly(s, t)
    ensures Kept(s, t, key, user)
  {
    hide DevicesOnly, BillingOnly, InvitationsOnly, MembershipsOnly;
    if DevicesOnly(s, t) {
      DevicesRest(s, t);
    } else if BillingOnly(s, t) {
      BillingRest(s, t);
    } else if InvitationsOnly(s, t) {
      InvitationsRest(s, t);
    } else {
      MembershipsRest(s, t);
    }
    SameKept(s, t, key, user);
  }

  lemma ElsewhereKept(s: State, a: Action, key: Request, user: Id)
    requires DeviceAction(a) || BillingAction(a) || InvitationAction(a) || a.DoUpdateMember? || a.DoMutate?
    ensures Kept(s, Step(s, a), key, user)
  {
    hide Step, Execute, Kept, DevicesOnly, BillingOnly, InvitationsOnly, MembershipsOnly;
    if DeviceAction(a) {
      DeviceFrame(s, a);
    } else if BillingAction(a) {
      BillingFrame(s, a);
    } else if InvitationAction(a) {
      InvitationFrame(s, a);
    } else {
      MembershipFrame(s, a);
    }
    OthersKept(s, Step(s, a), key, user);
  }

  lemma SettleStepKept(s: State, a: Action, key: Request, user: Id)
    requires a.DoSettle?
    ensures Kept(s, Step(s, a), key, user)
  {
    hide Kept;
    SettleKept(s, a.key, key, user);
  }

  /** No other transaction swaps a credential or writes a committed receipt. */
  lemma StepKept(s: State, a: Action, key: Request, user: Id)
    requires Inv(s) && Allowed(s, a) && !a.DoTryPassword?
    ensures Kept(s, Step(s, a), key, user)
  {
    hide Inv, Allowed, Step, Kept;
    if Founding(a) {
      FoundingKept(s, a, key, user);
    } else if a.DoRegister? || a.DoCreateMember? || a.DoAccept? {
      AccountKept(s, a, key, user);
    } else if a.DoSettle? {
      SettleStepKept(s, a, key, user);
    } else if DeviceAction(a) || BillingAction(a) || InvitationAction(a) || a.DoUpdateMember? || a.DoMutate? {
      ElsewhereKept(s, a, key, user);
    } else {
      ProfileKept(s, a, key, user);
    }
  }

  // ---- invariant of the protocol ---------------------------------------------------------------

  /** An answered call tells the truth about its receipt; a resolving one has a receipt to read. */
  predicate Truthful(s: State, call: Call) {
    match call.phase
    case Resolving(_) => call.input.key in s.receipts
    case Trying(verified) => call.input.next.Some? && Matches(call.input.current, verified)
    case Done(Changed) => Outcome(s, call.input.key) == Some(Committed)
    case Done(RequestNotApplied) => Outcome(s, call.input.key) == Some(NotApplied)
    case Done(Rejected(_)) => Outcome(s, call.input.key) == Some(NotApplied)
    case Done(NoDurableOutcome) => false
    case _ => true
  }

  /** Swaps and committed receipts match one to one, apart from those already there. */
  ghost predicate Matched(first: State, s: State, swaps: seq<Swap>) {
    && (forall i, j :: 0 <= i < j < |swaps| ==> swaps[i].key != swaps[j].key)
    && (forall i :: 0 <= i < |swaps| ==> swaps[i].key !in first.receipts && Outcome(s, swaps[i].key) == Some(Committed))
    && (forall key :: key in s.receipts && s.receipts[key] == Committed ==>
         key in first.receipts || exists i :: 0 <= i < |swaps| && swaps[i].key == key)
  }

  /** The hash a user ends up with: that of the last swap under their name, or the first one. */
  function LastSwap(swaps: seq<Swap>, user: Id, first: Hash): Hash {
    if swaps == [] then first
    else if swaps[|swaps| - 1].key.user == user then swaps[|swaps| - 1].next
    else LastSwap(swaps[..|swaps| - 1], user, first)
  }

  ghost predicate Sound(first: State, w: World) {
    && Inv(w.store)
    && (forall key :: key in first.receipts ==> key in w.store.receipts && w.store.receipts[key] == first.receipts[key])
    && (forall c :: c in w.calls ==> Truthful(w.store, w.calls[c]))
    && Matched(first, w.store, w.swaps)
    && (forall u :: u in first.credentials ==>
          u in w.store.credentials && w.store.credentials[u] == LastSwap(w.swaps, u, first.credentials[u]))
  }

  /** Kept for every key and user. */
  ghost predicate AllKept(s: State, t: State) {
    forall key: Request, user: Id :: Kept(s, t, key, user)
  }

  lemma KeptSound(first: State, w: World, t: State)
    requires Sound(first, w) && Inv(t) && AllKept(w.store, t)
    ensures Sound(first, w.(store := t))
  {
    hide Inv;
    var s := w.store;
    forall c | c in w.calls
      ensures Truthful(t, w.calls[c])
    {
      assert Kept(s, t, w.calls[c].input.key, 0);
    }
    hide Truthful;
    forall key | key in first.receipts
      ensures key in t.receipts && t.receipts[key] == first.receipts[key]
    {
      assert Kept(s, t, key, 0);
    }
    forall u | u in first.credentials
      ensures u in t.credentials && t.credentials[u] == s.credentials[u]
    {
      assert Kept(s, t, Request(u, 0), u);
    }
    KeptMatched(first, s, t, w.swaps);
    hide Matched;
  }

  lemma KeptMatched(first: State, s: State, t: State, swaps: seq<Swap>)
    requires Matched(first, s, swaps) && AllKept(s, t)
    ensures Matched(first, t, swaps)
  {
    forall i | 0 <= i < |swaps|
      ensures Outcome(t, swaps[i].key) == Some(Committed)
    {
      assert Kept(s, t, swaps[i].key, 0);
    }
    forall key | key in t.receipts && t.receipts[key] == Committed
      ensures key in first.receipts || exists i :: 0 <= i < |swaps| && swaps[i].key == key
    {
      assert Kept(s, t, key, 0);
    }
  }

  // ---- the swap itself -------------------------------------------------------------------

  lemma SwapWrites(s: State, call: Call, rows: seq<Id>, now: Time)
    requires Swaps(s, call, rows, now)
    ensures var t := StoreAfter(s, call, rows, now);
            var key := call.input.key;
            && key !in s.receipts && t.receipts == s.receipts[key := Committed]
            && key.user in s.credentials && s.credentials[key.user] == call.phase.verified
            && t.credentials == s.credentials[key.user := call.input.next.value]
  {
    hide Sessions.RevokeNodesOf, InvalidationLog.ForNodes;
  }

  lemma SwapMatched(first: State, s: State, t: State, swaps: seq<Swap>, swap: Swap)
    requires Matched(first, s, swaps) && swap.key !in s.receipts && t.receipts == s.receipts[swap.key := Committed]
          && swap.key !in first.receipts
    ensures Matched(first, t, swaps + [swap])
  {
    var all := swaps + [swap];
    assert all[|all| - 1] == swap;
    forall key | key in t.receipts && t.receipts[key] == Committed
      ensures key in first.receipts || exists i :: 0 <= i < |all| && all[i].key == key
    {
      if key == swap.key {
        assert all[|swaps|].key == key;
      } else if key !in first.receipts {
        var i :| 0 <= i < |swaps| && swaps[i].key == key;
        assert all[i].key == key;
      }
    }
  }

  lemma SwapLast(swaps: seq<Swap>, swap: Swap, user: Id, first: Hash)
    ensures LastSwap(swaps + [swap], user, first)
         == if swap.key.user == user then swap.next else LastSwap(swaps, user, first)
  {
    assert (swaps + [swap])[..|swaps|] == swaps;
  }

  lemma SwapTruthful(s: State, t: State, call: Call, key: Request)
    requires Truthful(s, call) && key !in s.receipts && t.receipts == s.receipts[key := Committed]
    ensures Truthful(t, call)
  {
  }

  lemma SwappedSound(first: State, w: World, t: State, swap: Swap)
    requires Sound(first, w) && Inv(t) && swap.key !in w.store.receipts && swap.key.user in w.store.credentials
    requires t.receipts == w.store.receipts[swap.key := Committed]
          && t.credentials == w.store.credentials[swap.key.user := swap.next]
    ensures Sound(first, World(t, w.calls, w.swaps + [swap]))
  {
    hide Inv, Truthful, Matched, LastSwap;
    var s := w.store;
    SwapMatched(first, s, t, w.swaps, swap);
    forall d | d in w.calls
      ensures Truthful(t, w.calls[d])
    {
      SwapTruthful(s, t, w.calls[d], swap.key);
    }
    forall u | u in first.credentials
      ensures u in t.credentials && t.credentials[u] == LastSwap(w.swaps + [swap], u, first.credentials[u])
    {
      SwapLast(w.swaps, swap, u, first.credentials[u]);
    }
  }

  lemma SwapSound(first: State, w: World, c: Id, rows: seq<Id>, now: Time)
    requires Sound(first, w) && c in w.calls && Swaps(w.store, w.calls[c], rows, now)
          && Inv(StoreAfter(w.store, w.calls[c], rows, now))
    ensures Sound(first, World(StoreAfter(w.store, w.calls[c], rows, now), w.calls,
              SwapsAfter(w, w.calls[c], rows, now)))
  {
    hide Inv, Sound, StoreAfter, Sessions.TryCommitPassword;
    var call := w.calls[c];
    SwapWrites(w.store, call, rows, now);
    SwappedSound(first, w, StoreAfter(w.store, call, rows, now), Swap(call.input.key, call.input.next.value));
  }

  // ---- every move ----------------------------------------------------------------------------

  lemma QuietStore(s: State, call: Call, rows: seq<Id>, now: Time)
    requires !Swaps(s, call, rows, now)
    ensures AllKept(s, StoreAfter(s, call, rows, now))
  {
    forall key: Request, user: Id
      ensures Kept(s, StoreAfter(s, call, rows, now), key, user)
    {
      SettleKept(s, call.input.key, key, user);
      SameKept(s, s, key, user);
    }
    hide Kept, Sessions.SettlePassword, Sessions.TryCommitPassword;
  }

  lemma StoreInv(s: State, call: Call, rows: seq<Id>, now: Time)
    requires Inv(s) && Lists(rows, LiveNodesOf(s.nodes, call.input.key.user))
    ensures Inv(StoreAfter(s, call, rows, now))
  {
    hide Inv, Lists, Sessions.SettlePassword, Sessions.TryCommitPassword;
    match call.phase
    case Trying(current) =>
      if call.input.next.Some? {
        Preservation.TryPasswordKeeps(s, call.input.key, current, call.input.next.value, rows, now);
      }
    case Rejecting(_) => Preservation.SettleKeeps(s, call.input.key);
    case _ =>
  }

  lemma TryTruthful(s: State, call: Call, rows: seq<Id>, now: Time)
    requires call.phase.Trying? && Truthful(s, call)
    ensures Truthful(StoreAfter(s, call, rows, now), call.(phase := PhaseAfter(s, call, rows, now)))
  {
    hide Sessions.Swapped;
    if Swaps(s, call, rows, now) {
      SwapWrites(s, call, rows, now);
    }
  }

  lemma RejectTruthful(s: State, call: Call, rows: seq<Id>, now: Time)
    requires call.phase.Rejecting?
    ensures Truthful(StoreAfter(s, call, rows, now), call.(phase := PhaseAfter(s, call, rows, now)))
  {
  }

  lemma ReadTruthful(s: State, call: Call, rows: seq<Id>, now: Time)
    requires Truthful(s, call) && !call.phase.Rejecting? && !call.phase.Trying?
    ensures Truthful(StoreAfter(s, call, rows, now), call.(phase := PhaseAfter(s, call, rows, now)))
  {
  }

  /** Where a call goes is true of the store it leaves behind. */
  lemma PhaseTruthful(s: State, call: Call, rows: seq<Id>, now: Time)
    requires Truthful(s, call)
    ensures Truthful(StoreAfter(s, call, rows, now), call.(phase := PhaseAfter(s, call, rows, now)))
  {
    hide Truthful, StoreAfter, PhaseAfter;
    if call.phase.Trying? {
      TryTruthful(s, call, rows, now);
    } else if call.phase.Rejecting? {
      RejectTruthful(s, call, rows, now);
    } else {
      ReadTruthful(s, call, rows, now);
    }
  }

  lemma StoreSound(first: State, w: World, c: Id, rows: seq<Id>, now: Time)
    requires Sound(first, w) && c in w.calls && Lists(rows, LiveNodesOf(w.store.nodes, w.calls[c].input.key.user))
    ensures Sound(first, World(StoreAfter(w.store, w.calls[c], rows, now), w.calls,
              SwapsAfter(w, w.calls[c], rows, now)))
  {
    hide Inv, Truthful, Matched, LastSwap, StoreAfter, Swaps;
    StoreInv(w.store, w.calls[c], rows, now);
    if Swaps(w.store, w.calls[c], rows, now) {
      SwapSound(first, w, c, rows, now);
    } else {
      QuietStore(w.store, w.calls[c], rows, now);
      KeptSound(first, w, StoreAfter(w.store, w.calls[c], rows, now));
    }
  }

  lemma CallSound(first: State, w: World, c: Id, call: Call)
    requires Sound(first, w) && Truthful(w.store, call)
    ensures Sound(first, w.(calls := w.calls[c := call]))
  {
    hide Inv, Truthful, Matched, LastSwap;
  }

  lemma SoundStore(first: State, w: World)
    requires Sound(first, w)
    ensures Inv(w.store)
  {
    hide Inv, Truthful, Matched, LastSwap;
  }

  lemma SoundCall(first: State, w: World, c: Id)
    requires Sound(first, w) && c in w.calls
    ensures Truthful(w.store, w.calls[c])
  {
    hide Inv, Truthful, Matched, LastSwap;
  }

  lemma OpenSound(first: State, w: World, c: Id, input: Input)
    requires Sound(first, w) && Enabled(w, Open(c, input))
    ensures Sound(first, Do(w, Open(c, input)))
  {
    hide Sound, Truthful;
    FailedTruthful(Call(input, Looking));
    CallSound(first, w, c, Call(input, Looking));
  }

  /** Nobody has called yet, and nothing has been swapped. */
  lemma StartSound(w: World)
    requires Inv(w.store) && w.calls == map[] && w.swaps == []
    ensures Sound(w.store, w)
  {
    hide Inv;
  }

  lemma AdvanceSound(first: State, w: World, c: Id, rows: seq<Id>, now: Time)
    requires Sound(first, w) && Enabled(w, Advance(c, rows, now))
    ensures Sound(first, Do(w, Advance(c, rows, now)))
  {
    hide Sound, Truthful, StoreAfter, PhaseAfter, SwapsAfter, Lists;
    var call := w.calls[c];
    SoundCall(first, w, c);
    StoreSound(first, w, c, rows, now);
    PhaseTruthful(w.store, call, rows, now);
    CallSound(first, World(StoreAfter(w.store, call, rows, now), w.calls, SwapsAfter(w, call, rows, now)), c,
      call.(phase := PhaseAfter(w.store, call, rows, now)));
  }

  lemma BreakSound(first: State, w: World, c: Id, rows: seq<Id>, now: Time, applied: bool)
    requires Sound(first, w) && Enabled(w, Break(c, rows, now, applied))
    ensures Sound(first, Do(w, Break(c, rows, now, applied)))
  {
    hide Sound, Truthful, StoreAfter, SwapsAfter, Lists;
    var call := w.calls[c];
    var broken := call.(phase := Done(Failed));
    FailedTruthful(call);
    if applied {
      StoreSound(first, w, c, rows, now);
      CallSound(first, World(StoreAfter(w.store, call, rows, now), w.calls, SwapsAfter(w, call, rows, now)), c, broken);
    } else {
      CallSound(first, w, c, broken);
    }
  }

  lemma FailedTruthful(call: Call)
    ensures forall s :: Truthful(s, call.(phase := Done(Failed)))
    ensures forall s :: Truthful(s, call.(phase := Looking))
  {
  }

  lemma ElsewhereSound(first: State, w: World, a: Action)
    requires Sound(first, w) && Enabled(w, Elsewhere(a))
    ensures Sound(first, Do(w, Elsewhere(a)))
  {
    hide Sound, Step, Allowed, Inv;
    SoundStore(first, w);
    Preservation.StepKeeps(w.store, a);
    forall key: Request, user: Id
      ensures Kept(w.store, Step(w.store, a), key, user)
    {
      StepKept(w.store, a, key, user);
    }
    KeptSound(first, w, Step(w.store, a));
  }

  lemma DoSound(first: State, w: World, m: Move)
    requires Sound(first, w) && Enabled(w, m)
    ensures Sound(first, Do(w, m))
  {
    hide Sound, Enabled, Do;
    match m
    case Open(c, input) =>
      OpenSound(first, w, c, input);
    case Advance(c, rows, now) => AdvanceSound(first, w, c, rows, now);
    case Break(c, rows, now, applied) => BreakSound(first, w, c, rows, now, applied);
    case Elsewhere(a) => ElsewhereSound(first, w, a);
  }

  lemma {:induction false} RunSound(worlds: seq<World>, moves: seq<Move>, i: nat)
    requires Runs(worlds, moves) && i < |worlds|
    ensures Sound(worlds[0].store, worlds[i])
  {
    hide Enabled, Do, Sound, Inv;
    if i == 0 {
      StartSound(worlds[0]);
    } else {
      RunSound(worlds, moves, i - 1);
      DoSound(worlds[0].store, worlds[i - 1], moves[i - 1]);
    }
  }

  // ---- the promises ----------------------------------------------------------------------------

  lemma ReceiptStays(first: State, w: World, m: Move, key: Request)
    requires Sound(first, w) && Enabled(w, m) && key in w.store.receipts
    ensures key in Do(w, m).store.receipts && Do(w, m).store.receipts[key] == w.store.receipts[key]
  {
    hide Sound, Step, Allowed, Inv, StoreAfter, PhaseAfter, SwapsAfter, Lists;
    match m
    case Open(_, _) =>
    case Advance(c, rows, now) => CallReceipt(w.store, w.calls[c], rows, now, key);
    case Break(c, rows, now, _) => CallReceipt(w.store, w.calls[c], rows, now, key);
    case Elsewhere(a) =>
      SoundStore(first, w);
      StepKept(w.store, a, key, 0);
  }

  lemma CallReceipt(s: State, call: Call, rows: seq<Id>, now: Time, key: Request)
    requires key in s.receipts
    ensures var t := StoreAfter(s, call, rows, now);
            key in t.receipts && t.receipts[key] == s.receipts[key]
  {
    if Swaps(s, call, rows, now) {
      SwapWrites(s, call, rows, now);
    } else {
      QuietStore(s, call, rows, now);
      assert Kept(s, StoreAfter(s, call, rows, now), key, 0);
    }
  }

  /** Main result. A receipt never changes once it is written. */
  lemma {:induction false} ReceiptsAreImmutable(worlds: seq<World>, moves: seq<Move>, i: nat, j: nat, key: Request)
    requires Runs(worlds, moves) && i <= j < |worlds| && key in worlds[i].store.receipts
    ensures key in worlds[j].store.receipts && worlds[j].store.receipts[key] == worlds[i].store.receipts[key]
    decreases j - i
  {
    hide Enabled, Do, Sound, Inv;
    if i < j {
      ReceiptsAreImmutable(worlds, moves, i, j - 1, key);
      RunSound(worlds, moves, j - 1);
      ReceiptStays(worlds[0].store, worlds[j - 1], moves[j - 1], key);
    }
  }

  /** Main result. In every interleaving the committed receipts written since the start and
      the credential swaps are the same keys, each swap once; and a user's hash is that of
      their last swap. */
  lemma ReceiptsMatchSwaps(worlds: seq<World>, moves: seq<Move>, j: nat)
    requires Runs(worlds, moves) && j < |worlds|
    ensures Matched(worlds[0].store, worlds[j].store, worlds[j].swaps)
    ensures forall u :: u in worlds[0].store.credentials ==>
              && u in worlds[j].store.credentials
              && worlds[j].store.credentials[u] == LastSwap(worlds[j].swaps, u, worlds[0].store.credentials[u])
  {
    hide Enabled, Do, Inv, Matched;
    RunSound(worlds, moves, j);
  }

  /**
   Main result. An answer is true when given and stays true: success means the receipt is
   committed, a refusal after the first read means it is not applied and no swap under this
   key ever happened, and the branch for a missing outcome is never taken.
   */
  lemma AnswersAreTrue(worlds: seq<World>, moves: seq<Move>, i: nat, j: nat, c: Id)
    requires Runs(worlds, moves) && i <= j < |worlds| && c in worlds[i].calls && worlds[i].calls[c].phase.Done?
    ensures var answer, key := worlds[i].calls[c].phase.answer, worlds[i].calls[c].input.key;
            && answer != NoDurableOutcome
            && (answer.Changed? ==> Outcome(worlds[j].store, key) == Some(Committed))
            && (answer.RequestNotApplied? || answer.Rejected? ==>
                  && Outcome(worlds[j].store, key) == Some(NotApplied)
                  && forall k :: 0 <= k < |worlds[j].swaps| ==> worlds[j].swaps[k].key != key)
  {
    hide Enabled, Do, Inv, Runs;
    RunSound(worlds, moves, i);
    assert Truthful(worlds[i].store, worlds[i].calls[c]);
    RunSound(worlds, moves, j);
    var key := worlds[i].calls[c].input.key;
    if key in worlds[i].store.receipts {
      ReceiptsAreImmutable(worlds, moves, i, j, key);
    }
  }

  /** A swap replaces the very hash the call verified, and its caller knew that password. */
  lemma SwapKnowsThePassword(worlds: seq<World>, moves: seq<Move>, i: nat, c: Id, rows: seq<Id>, now: Time)
    requires Runs(worlds, moves) && i < |worlds| && c in worlds[i].calls
    requires Swaps(worlds[i].store, worlds[i].calls[c], rows, now)
    ensures var input, s := worlds[i].calls[c].input, worlds[i].store;
            && input.key.user in s.credentials && s.credentials[input.key.user] == worlds[i].calls[c].phase.verified
            && Matches(input.current, s.credentials[input.key.user])
  {
    hide Enabled, Do, Inv;
    RunSound(worlds, moves, i);
    SwapWrites(worlds[i].store, worlds[i].calls[c], rows, now);
    assert Truthful(worlds[i].store, worlds[i].calls[c]);
  }
}
