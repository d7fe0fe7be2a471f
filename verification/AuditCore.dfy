/**
 Audit accounting of admitted writes and remote calls.  Replies, errors, cancellations, destructors and the
 dispatch re-check compete to complete an operation; one step is one atomic counter access, one claim or one
 audit record.
 */
module AuditCore {

  datatype Kind = Put | Rpc

  datatype Outcome = Success | Error | Cancelled | Denied | Abandoned

  /** How far an operation has come.  A refusal is recorded (`reported`) before its completion is. */
  datatype Stage =
    | Numbered
    | Counted
    | Open
    | Claimed(outcome: Outcome, reported: bool)
    | Released(outcome: Outcome)
    | Tallied(outcome: Outcome)
    | Closed(outcome: Outcome)

  datatype Operation = Operation(trap: bool, kind: Kind, stage: Stage)

  datatype Record =
    | Allowed(id: nat, kind: Kind)
    | Refused(id: nat, kind: Kind)
    | Completion(id: nat, kind: Kind, outcome: Outcome)

  datatype Tally = Tally(succeeded: nat, failed: nat, cancelled: nat, denied: nat, abandoned: nat)

  datatype State = State(operations: seq<Operation>, authorized: nat, inFlight: int, tally: Tally, deniedWrites: nat, log: seq<Record>)

  const Start := State([], 0, 0, Tally(0, 0, 0, 0, 0), 0, [])

  function Of(tally: Tally, outcome: Outcome): nat {
    match outcome
    case Success => tally.succeeded
    case Error => tally.failed
    case Cancelled => tally.cancelled
    case Denied => tally.denied
    case Abandoned => tally.abandoned
  }

  function Bump(tally: Tally, outcome: Outcome): Tally {
    match outcome
    case Success => tally.(succeeded := tally.succeeded + 1)
    case Error => tally.(failed := tally.failed + 1)
    case Cancelled => tally.(cancelled := tally.cancelled + 1)
    case Denied => tally.(denied := tally.denied + 1)
    case Abandoned => tally.(abandoned := tally.abandoned + 1)
  }

  datatype Step =
    | Number(trap: bool, kind: Kind)
    | CountIn(i: nat)
    | Announce(i: nat)
    | Finish(i: nat, outcome: Outcome)
    | Recheck(i: nat)
    | Refuse(i: nat)
    | Release(i: nat)
    | Score(i: nat)
    | Conclude(i: nat)
    | Reject(kind: Kind)

  predicate At(s: State, i: nat, stage: Stage) {
    i < |s.operations| && s.operations[i].stage == stage
  }

  /** The operation exists for callbacks once its admission has been announced. */
  predicate Admitted(s: State, i: nat) {
    i < |s.operations| && !s.operations[i].stage.Numbered? && !s.operations[i].stage.Counted?
  }

  predicate Possible(s: State, step: Step) {
    match step
    case Number(_, _) => true
    case CountIn(i) => At(s, i, Numbered)
    case Announce(i) => At(s, i, Counted)
    case Finish(i, outcome) => Admitted(s, i) && !outcome.Denied?
    case Recheck(i) => Admitted(s, i)
    case Refuse(i) => At(s, i, Claimed(Denied, false))
    case Release(i) => i < |s.operations| && s.operations[i].stage.Claimed? && s.operations[i].stage.reported
    case Score(i) => i < |s.operations| && s.operations[i].stage.Released?
    case Conclude(i) => i < |s.operations| && s.operations[i].stage.Tallied?
    case Reject(_) => true
  }

  function Move(s: State, i: nat, stage: Stage): State
    requires i < |s.operations|
  {
    s.(operations := s.operations[i := s.operations[i].(stage := stage)])
  }

  function Log(s: State, record: Record): State {
    s.(log := s.log + [record])
  }

  /** A denial that no admitted operation accounts for. */
  function Denial(s: State, id: nat, kind: Kind): State {
    Log(s.(deniedWrites := s.deniedWrites + 1), Refused(id, kind))
  }

  function After(s: State, step: Step): State
    requires Possible(s, step)
  {
    match step
    case Number(trap, kind) =>
      s.(operations := s.operations + [Operation(trap, kind, Numbered)], authorized := s.authorized + 1)
    case CountIn(i) => Move(s, i, Counted).(inFlight := s.inFlight + 1)
    case Announce(i) =>
      var t := Move(s, i, Open);
      if s.operations[i].trap then Log(t, Allowed(i + 1, s.operations[i].kind)) else t
    case Finish(i, outcome) => if s.operations[i].stage.Open? then Move(s, i, Claimed(outcome, true)) else s
    case Recheck(i) =>
      if s.operations[i].stage.Open? then Move(s, i, Claimed(Denied, false)) else Denial(s, 0, s.operations[i].kind)
    case Refuse(i) =>
      Denial(Move(s, i, Claimed(Denied, true)), if s.operations[i].trap then i + 1 else 0, s.operations[i].kind)
    case Release(i) => Move(s, i, Released(s.operations[i].stage.outcome)).(inFlight := s.inFlight - 1)
    case Score(i) =>
      Move(s, i, Tallied(s.operations[i].stage.outcome)).(tally := Bump(s.tally, s.operations[i].stage.outcome))
    case Conclude(i) =>
      var outcome := s.operations[i].stage.outcome;
      var t := Move(s, i, Closed(outcome));
      if s.operations[i].trap then Log(t, Completion(i + 1, s.operations[i].kind, outcome)) else t
    case Reject(kind) => Denial(s, 0, kind)
  }
}
