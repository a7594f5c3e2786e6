/**
 `ChangePassword` run without interference: the statement-by-statement service code of
 internal/service/auth/user.go over the repository, and the answer it must give.
 */
module PasswordService {
  import opened Records
  import opened PasswordProtocol
  import Repository
  import Schema
  import Sessions

  /** The checks before the attempt, in order. */
  function Refusal(s: State, input: Input): Option<Rejection> {
    var user := input.key.user;
    if !input.wellFormed then Some(Rejection.RequestInvalid)
    else if user !in s.users || user !in s.credentials then Some(WrongPassword)
    else if !Matches(input.current, s.credentials[user]) || !s.users[user].active then Some(WrongPassword)
    else if input.next.None? then Some(HashFailed)
    else None
  }

  /** What an undisturbed call answers. */
  function Expected(s: State, input: Input): Answer {
    match Outcome(s, input.key)
    case Some(Committed) => Changed
    case Some(NotApplied) => RequestNotApplied
    case None =>
      if input.key.user !in s.users then Failed
      else if Refusal(s, input).Some? then Rejected(Refusal(s, input).value)
      else Changed
  }

  /** The answers of an undisturbed call, by what the tables and the input say. */
  lemma AnswersExactly(s: State, input: Input)
    ensures var user := input.key.user;
            var known := input.key in s.receipts;
            var fits := user in s.users && s.users[user].active && user in s.credentials
                        && input.current == s.credentials[user].password;
            && (Expected(s, input) == Changed <==>
                  if known then s.receipts[input.key] == Committed
                  else input.wellFormed && fits && input.next.Some?)
            && (Expected(s, input) == RequestNotApplied <==> known && s.receipts[input.key] == NotApplied)
            && (Expected(s, input) == Failed <==> !known && user !in s.users)
            && (Expected(s, input) == Rejected(Rejection.RequestInvalid) <==>
                  !known && user in s.users && !input.wellFormed)
            && (Expected(s, input) == Rejected(WrongPassword) <==>
                  !known && user in s.users && input.wellFormed && !fits)
            && (Expected(s, input) == Rejected(HashFailed) <==>
                  !known && input.wellFormed && fits && input.next.None?)
  {
  }

  /** A call of the interleaved protocol when nobody else takes a step. */
  function Alone(s: State, call: Call, rows: seq<Id>, now: Time, steps: nat): Phase
    decreases steps
  {
    if steps == 0 then call.phase
    else Alone(StoreAfter(s, call, rows, now), call.(phase := PhaseAfter(s, call, rows, now)), rows, now, steps - 1)
  }

  lemma AloneDone(s: State, call: Call, rows: seq<Id>, now: Time, steps: nat)
    requires call.phase.Done?
    ensures Alone(s, call, rows, now, steps) == call.phase
  {
  }

  /** Rejecting alone: the receipt is written unless the user is unknown, and the rejection stands. */
  lemma RejectsAlone(s: State, call: Call, rows: seq<Id>, now: Time, steps: nat)
    requires call.phase.Rejecting? && call.input.key !in s.receipts && steps >= 2
    ensures Alone(s, call, rows, now, steps)
         == Done(if call.input.key.user in s.users then Rejected(call.phase.why) else Failed)
  {
    var t := StoreAfter(s, call, rows, now);
    var next := call.(phase := PhaseAfter(s, call, rows, now));
    if call.input.key.user in s.users {
      var last := next.(phase := PhaseAfter(t, next, rows, now));
      assert last.phase == Done(Rejected(call.phase.why));
      AloneDone(StoreAfter(t, next, rows, now), last, rows, now, steps - 2);
    } else {
      AloneDone(t, next, rows, now, steps - 1);
    }
  }

  lemma TriesAlone(s: State, call: Call, rows: seq<Id>, now: Time, steps: nat)
    requires call.phase.Trying? && call.input.next.Some? && call.input.key !in s.receipts && steps >= 1
    requires call.input.key.user in s.users && call.input.key.user in s.credentials
    requires s.credentials[call.input.key.user] == call.phase.verified
    ensures Alone(s, call, rows, now, steps) == Done(Changed)
  {
    AloneDone(StoreAfter(s, call, rows, now), call.(phase := PhaseAfter(s, call, rows, now)), rows, now, steps - 1);
    hide Sessions.Swapped;
  }

  /** Undisturbed, the steps of the protocol end in the very answer of the service method. */
  lemma AloneAnswers(s: State, input: Input, rows: seq<Id>, now: Time)
    ensures Alone(s, Call(input, Looking), rows, now, 4) == Done(Expected(s, input))
  {
    var looked := Call(input, Look(s, input));
    assert Alone(s, Call(input, Looking), rows, now, 4) == Alone(s, looked, rows, now, 3);
    match looked.phase
    case Done(_) => AloneDone(s, looked, rows, now, 3);
    case Rejecting(_) => RejectsAlone(s, looked, rows, now, 3);
    case Reading =>
      var read := Call(input, Read(s, input));
      assert Alone(s, looked, rows, now, 3) == Alone(s, read, rows, now, 2);
      if read.phase.Trying? {
        TriesAlone(s, read, rows, now, 2);
      } else {
        RejectsAlone(s, read, rows, now, 2);
      }
  }

  /** `rejectPasswordChange`: settle, then believe what the receipt says. */
  method RejectPasswordChange(r: Repository.Repository, key: Request, why: Rejection) returns (answer: Answer)
    requires r.Valid()
    modifies r
    ensures r.Valid()
    ensures r.Snapshot() == Sessions.SettlePassword(old(r.Snapshot()), key).After(old(r.Snapshot()))
    ensures Outcome(old(r.Snapshot()), key) == Some(Committed) ==> answer.Changed?
    ensures Outcome(old(r.Snapshot()), key) == Some(NotApplied) ==> answer == Rejected(why)
    ensures Outcome(old(r.Snapshot()), key).None? ==>
              answer == if key.user in old(r.Snapshot()).users then Rejected(why) else Failed
    ensures answer.Rejected? ==> Outcome(r.Snapshot(), key) == Some(NotApplied)
  {
    hide *;
    ghost var s := r.Snapshot();
    SettledOutcome(s, key);
    var fault := r.SettlePasswordChange(key);
    if fault.Some? {
      return Failed;
    }
    answer := ResolvePasswordChange(r, key);
    if answer.RequestNotApplied? {
      return Rejected(why);
    }
  }

  lemma SettledOutcome(s: State, key: Request)
    ensures var tx := Sessions.SettlePassword(s, key);
            && (Repository.FaultOf(tx).Some? <==> Outcome(s, key).None? && key.user !in s.users)
            && (Repository.FaultOf(tx).None? ==>
                  Outcome(tx.After(s), key) == if Outcome(s, key).Some? then Outcome(s, key) else Some(NotApplied))
  {
  }

  method ResolvePasswordChange(r: Repository.Repository, key: Request) returns (answer: Answer)
    ensures answer == match Outcome(r.Snapshot(), key)
                      case Some(Committed) => Changed
                      case Some(NotApplied) => RequestNotApplied
                      case None => NoDurableOutcome
  {
    var outcome := Outcome(r.Snapshot(), key);
    if outcome == Some(Committed) {
      return Changed;
    }
    if outcome == Some(NotApplied) {
      return RequestNotApplied;
    }
    return NoDurableOutcome;
  }

  /** The state of a successful change: the swap, with the user's devices in some order. */
  ghost predicate Succeeded(s: State, t: State, input: Input, now: Time) {
    && input.next.Some?
    && exists rows ::
         && Lists(rows, Schema.LiveNodesOf(s.nodes, input.key.user))
         && t == Sessions.Swapped(s, input.key, input.next.value, rows, now)
  }

  /** The whole call. Undisturbed it never reports a missing outcome, commits exactly when the
      current password fits, and leaves a receipt behind unless the user is unknown. */
  method ChangePassword(r: Repository.Repository, input: Input, now: Time) returns (answer: Answer)
    requires r.Valid()
    modifies r
    ensures r.Valid()
    ensures answer == Expected(old(r.Snapshot()), input)
    ensures answer.Changed? ==> Outcome(r.Snapshot(), input.key) == Some(Committed)
    ensures answer.RequestNotApplied? ==> Outcome(r.Snapshot(), input.key) == Some(NotApplied)
    ensures answer.Rejected? ==> Outcome(r.Snapshot(), input.key) == Some(NotApplied)
    ensures Outcome(old(r.Snapshot()), input.key).None? && answer.Changed? ==>
              Succeeded(old(r.Snapshot()), r.Snapshot(), input, now)
  {
    var s := r.Snapshot();
    var key := input.key;
    hide *;
    ExpectedIs(s, input);
    var known := Outcome(s, key);
    if known == Some(Committed) {
      return Changed;
    }
    if known == Some(NotApplied) {
      return RequestNotApplied;
    }
    answer := FirstAnswer(r, input, now);
  }

  /** A request without an outcome: the checks, then the attempt. */
  method FirstAnswer(r: Repository.Repository, input: Input, now: Time) returns (answer: Answer)
    requires r.Valid() && Outcome(r.Snapshot(), input.key).None?
    modifies r
    ensures r.Valid()
    ensures answer == if input.key.user !in old(r.Snapshot()).users then Failed
                      else if Refusal(old(r.Snapshot()), input).Some? then
                        Rejected(Refusal(old(r.Snapshot()), input).value)
                      else Changed
    ensures answer.Changed? ==> Outcome(r.Snapshot(), input.key) == Some(Committed)
    ensures !answer.RequestNotApplied?
    ensures answer.Rejected? ==> Outcome(r.Snapshot(), input.key) == Some(NotApplied)
    ensures answer.Changed? ==> Succeeded(old(r.Snapshot()), r.Snapshot(), input, now)
  {
    var s := r.Snapshot();
    hide Schema.Inv, Succeeded, Sessions.SettlePassword, Outcome, Matches;
    var why := Refusal(s, input);
    if why.Some? {
      answer := RejectPasswordChange(r, input.key, why.value);
      return;
    }
    answer := TryChange(r, input, s.credentials[input.key.user], now);
  }

  /** The attempt with the hash just verified, and the three ways it can end. */
  method TryChange(r: Repository.Repository, input: Input, verified: Hash, now: Time) returns (answer: Answer)
    requires r.Valid() && input.next.Some? && Outcome(r.Snapshot(), input.key).None?
    requires var s := r.Snapshot();
             && input.key.user in s.users && input.key.user in s.credentials
             && s.credentials[input.key.user] == verified
    modifies r
    ensures r.Valid() && answer.Changed? && Outcome(r.Snapshot(), input.key) == Some(Committed)
    ensures Succeeded(old(r.Snapshot()), r.Snapshot(), input, now)
  {
    var s := r.Snapshot();
    hide Schema.Inv, Lists, Schema.LiveNodesOf, Sessions.Swapped;
    ghost var rows: seq<Id>;
    var fault: Option<Fault>;
    fault, rows := r.TryCommitPasswordChange(input.key, verified, input.next.value, now);
    SwappedOutcome(s, input.key, input.next.value, rows, now);
    answer := ReportAttempt(r, input.key, fault);
  }

  /** The switch after the attempt. */
  method ReportAttempt(r: Repository.Repository, key: Request, fault: Option<Fault>) returns (answer: Answer)
    requires r.Valid()
    modifies r
    ensures r.Valid()
    ensures fault.None? ==> answer.Changed? && r.Snapshot() == old(r.Snapshot())
    ensures fault == Some(CredentialChanged) ==>
              r.Snapshot() == Sessions.SettlePassword(old(r.Snapshot()), key).After(old(r.Snapshot()))
    ensures fault.Some? && fault != Some(CredentialChanged) ==> r.Snapshot() == old(r.Snapshot())
  {
    match fault
    case None => answer := Changed;
    case Some(ReceiptExists) => answer := ResolvePasswordChange(r, key);
    case Some(CredentialChanged) => answer := RejectPasswordChange(r, key, WrongPassword);
    case Some(_) => answer := Failed;
  }

  lemma ExpectedIs(s: State, input: Input)
    ensures Expected(s, input) ==
      if Outcome(s, input.key).Some? then
        (if Outcome(s, input.key).value.Committed? then Changed else RequestNotApplied)
      else if input.key.user !in s.users then Failed
      else if Refusal(s, input).Some? then Rejected(Refusal(s, input).value)
      else Changed
  {
    hide Outcome, Refusal;
  }

  lemma SwappedOutcome(s: State, key: Request, next: Hash, rows: seq<Id>, now: Time)
    ensures Outcome(Sessions.Swapped(s, key, next, rows, now), key) == Some(Committed)
  {
  }
}
