/** The callbacks of an authorized operation, each proved to take exactly the steps of the accounting model, in order. */
module AccessAudits {
  import opened AuditCore

  // ---- callbacks that run to their end undisturbed ----

  function AdmitAll(s: State, trap: bool, kind: Kind): State {
    var i := |s.operations|;
    After(After(After(s, Number(trap, kind)), CountIn(i)), Announce(i))
  }

  /** The winner of the claim takes itself out of flight, scores and records. */
  function CompleteAll(s: State, i: nat): State
    requires i < |s.operations| && s.operations[i].stage.Claimed? && s.operations[i].stage.reported
  {
    After(After(After(s, Release(i)), Score(i)), Conclude(i))
  }

  function FinishAll(s: State, i: nat, outcome: Outcome): State
    requires Admitted(s, i) && !outcome.Denied?
  {
    if s.operations[i].stage.Open? then CompleteAll(After(s, Step.Finish(i, outcome)), i) else s
  }

  function RecheckAll(s: State, i: nat): State
    requires Admitted(s, i)
  {
    var t := After(s, Recheck(i));
    if s.operations[i].stage.Open? then CompleteAll(After(t, Refuse(i)), i) else t
  }

  class AccessAudit {
    var operations: seq<Operation>
    var authorized: nat
    var inFlight: int
    var tally: Tally
    var deniedWrites: nat
    var log: seq<Record>

    ghost function Model(): State
      reads this
    {
      State(operations, authorized, inFlight, tally, deniedWrites, log)
    }

    constructor ()
      ensures Model() == Start
    {
      operations, authorized, inFlight, tally, deniedWrites, log := [], 0, 0, AuditCore.Tally(0, 0, 0, 0, 0), 0, [];
    }

    /** A write or call is admitted. */
    method Admit(trap: bool, kind: Kind) returns (i: nat)
      modifies this
      ensures i == |old(operations)| && Model() == AdmitAll(old(Model()), trap, kind)
    {
      i := |operations|;
      authorized := authorized + 1;
      inFlight := inFlight + 1;
      operations := operations + [Operation(trap, kind, Open)];
      if trap {
        log := log + [Allowed(i + 1, kind)];
      }
    }

    /** Exactly one caller wins the right to complete an operation. */
    method Claim(i: nat, stage: Stage) returns (won: bool)
      requires Admitted(Model(), i)
      modifies this`operations
      ensures won <==> old(operations)[i].stage.Open?
      ensures Model() == if won then Move(old(Model()), i, stage) else old(Model())
    {
      won := operations[i].stage.Open?;
      if won {
        operations := operations[i := operations[i].(stage := stage)];
      }
    }

    method Complete(i: nat)
      requires i < |operations| && operations[i].stage.Claimed? && operations[i].stage.reported
      modifies this`operations, this`inFlight, this`tally, this`log
      ensures Model() == CompleteAll(old(Model()), i)
      ensures operations == old(operations)[i := old(operations)[i].(stage := Closed(old(operations)[i].stage.outcome))]
    {
      var outcome := operations[i].stage.outcome;
      inFlight := inFlight - 1;
      tally := Bump(tally, outcome);
      if operations[i].trap {
        log := log + [Completion(i + 1, operations[i].kind, outcome)];
      }
      operations := operations[i := operations[i].(stage := Closed(outcome))];
    }

    /** A reply, an error, a cancellation or a destructor. */
    method Finish(i: nat, outcome: Outcome)
      requires Admitted(Model(), i) && !outcome.Denied?
      modifies this`operations, this`inFlight, this`tally, this`log
      ensures Model() == FinishAll(old(Model()), i, outcome)
      ensures i < |operations| && operations[i] == if old(operations)[i].stage.Open? then old(operations)[i].(stage := Closed(outcome))
                                                   else old(operations)[i]
    {
      var won := Claim(i, Claimed(outcome, true));
      if won {
        Complete(i);
      }
    }

    /** The re-check before dispatch; without the right to write it refuses and completes the operation as denied. */
    method Authorized(i: nat, mayWrite: bool) returns (ok: bool)
      requires Admitted(Model(), i)
      modifies this
      ensures ok == mayWrite
      ensures Model() == if mayWrite then old(Model()) else RecheckAll(old(Model()), i)
      ensures i < |operations| && operations[i] == if !mayWrite && old(operations)[i].stage.Open?
                                                   then old(operations)[i].(stage := Closed(Denied)) else old(operations)[i]
    {
      hide CompleteAll;
      if mayWrite {
        return true;
      }
      var open := Claim(i, Claimed(Denied, false));
      deniedWrites := deniedWrites + 1;
      log := log + [Refused(if open && operations[i].trap then i + 1 else 0, operations[i].kind)];
      if open {
        operations := operations[i := operations[i].(stage := Claimed(Denied, true))];
        Complete(i);
      }
      ok := false;
    }
  }
}
