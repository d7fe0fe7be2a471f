/** What the counters and the audit log say at every moment of every run. */
module AuditTheorems {
  import opened Basics
  import opened AuditCore

  // ---- counting ----

  function Count(operations: seq<Operation>, p: Operation -> bool): nat {
    if operations == [] then 0
    else Count(operations[..|operations| - 1], p) + if p(operations[|operations| - 1]) then 1 else 0
  }

  function One(b: bool): nat {
    if b then 1 else 0
  }

  lemma {:induction false} CountUpdate(operations: seq<Operation>, p: Operation -> bool, i: nat, x: Operation)
    requires i < |operations|
    ensures Count(operations[i := x], p) == Count(operations, p) - One(p(operations[i])) + One(p(x))
  {
    var n := |operations| - 1;
    if i == n {
      assert operations[i := x][..n] == operations[..n];
    } else {
      CountUpdate(operations[..n], p, i, x);
      assert operations[i := x][..n] == operations[..n][i := x];
    }
  }

  lemma CountAppend(operations: seq<Operation>, p: Operation -> bool, x: Operation)
    ensures Count(operations + [x], p) == Count(operations, p) + One(p(x))
  {
    assert (operations + [x])[..|operations|] == operations;
  }

  const Inside := (o: Operation) => o.stage.Counted? || o.stage.Open? || o.stage.Claimed?

  function Scored(outcome: Outcome): Operation -> bool {
    (o: Operation) => (o.stage.Tallied? || o.stage.Closed?) && o.stage.outcome == outcome
  }

  ghost predicate Balanced(s: State) {
    && s.authorized == |s.operations|
    && s.inFlight == Count(s.operations, Inside)
    && forall outcome :: Of(s.tally, outcome) == Count(s.operations, Scored(outcome))
  }

  lemma MoveCounts(s: State, i: nat, stage: Stage, outcome: Outcome)
    requires i < |s.operations|
    ensures var o := s.operations[i];
            var t := Move(s, i, stage);
            && Count(t.operations, Inside) == Count(s.operations, Inside) - One(Inside(o)) + One(Inside(o.(stage := stage)))
            && Count(t.operations, Scored(outcome))
               == Count(s.operations, Scored(outcome)) - One(Scored(outcome)(o)) + One(Scored(outcome)(o.(stage := stage)))
  {
    CountUpdate(s.operations, Inside, i, s.operations[i].(stage := stage));
    CountUpdate(s.operations, Scored(outcome), i, s.operations[i].(stage := stage));
  }

  /** Every step but the first moves one operation or none. */
  lemma StepMoves(s: State, step: Step)
    requires Possible(s, step) && !step.Number? && !step.Reject?
    ensures step.i < |s.operations| && |After(s, step).operations| == |s.operations|
    ensures After(s, step).operations == Move(s, step.i, After(s, step).operations[step.i].stage).operations
  {
  }

  lemma StepCounts(s: State, step: Step, outcome: Outcome)
    requires Possible(s, step)
    requires s.inFlight == Count(s.operations, Inside) && Of(s.tally, outcome) == Count(s.operations, Scored(outcome))
    ensures var t := After(s, step);
            t.inFlight == Count(t.operations, Inside) && Of(t.tally, outcome) == Count(t.operations, Scored(outcome))
  {
    hide Count;
    var t := After(s, step);
    if step.Number? {
      CountAppend(s.operations, Inside, Operation(step.trap, step.kind, Numbered));
      CountAppend(s.operations, Scored(outcome), Operation(step.trap, step.kind, Numbered));
    } else if !step.Reject? {
      StepMoves(s, step);
      MoveCounts(s, step.i, t.operations[step.i].stage, outcome);
    }
  }

  lemma StepBalanced(s: State, step: Step)
    requires Balanced(s) && Possible(s, step)
    ensures Balanced(After(s, step))
  {
    hide Count;
    StepCounts(s, step, Success);
    assert After(s, step).authorized == |After(s, step).operations|;
    hide After, Possible;
    forall outcome
      ensures Of(After(s, step).tally, outcome) == Count(After(s, step).operations, Scored(outcome))
    {
      StepCounts(s, step, outcome);
    }
  }

  // ---- the log ----

  /** The records under one identifier, in order. */
  function Trail(log: seq<Record>, id: nat): seq<Record> {
    if log == [] then []
    else Trail(log[..|log| - 1], id) + if log[|log| - 1].id == id then [log[|log| - 1]] else []
  }

  lemma TrailAppend(log: seq<Record>, record: Record, id: nat)
    ensures Trail(log + [record], id) == Trail(log, id) + if record.id == id then [record] else []
  {
    assert (log + [record])[..|log|] == log;
  }

  /** What the log must hold about an operation at each stage. */
  function Expected(o: Operation, id: nat): seq<Record> {
    if !o.trap || o.stage.Numbered? || o.stage.Counted? then []
    else
      [Allowed(id, o.kind)]
      + (if RefusalRecorded(o.stage) then [Refused(id, o.kind)] else [])
      + (if o.stage.Closed? then [Completion(id, o.kind, o.stage.outcome)] else [])
  }

  predicate RefusalRecorded(stage: Stage) {
    match stage
    case Claimed(outcome, reported) => outcome.Denied? && reported
    case Released(outcome) => outcome.Denied?
    case Tallied(outcome) => outcome.Denied?
    case Closed(outcome) => outcome.Denied?
    case _ => false
  }

  ghost predicate Traced(s: State) {
    && (forall i | 0 <= i < |s.operations| :: Trail(s.log, i + 1) == Expected(s.operations[i], i + 1))
    && (forall id: nat | id > |s.operations| :: Trail(s.log, id) == [])
    && (forall i | 0 <= i < |s.operations| :: ClaimOk(s.operations[i]))
  }

  /** The log grows by at most one record. */
  function Added(s: State, step: Step): seq<Record>
    requires Possible(s, step)
  {
    match step
    case Announce(i) => if s.operations[i].trap then [Allowed(i + 1, s.operations[i].kind)] else []
    case Recheck(i) => if s.operations[i].stage.Open? then [] else [Refused(0, s.operations[i].kind)]
    case Refuse(i) => [Refused(if s.operations[i].trap then i + 1 else 0, s.operations[i].kind)]
    case Conclude(i) =>
      if s.operations[i].trap then [Completion(i + 1, s.operations[i].kind, s.operations[i].stage.outcome)] else []
    case Reject(kind) => [Refused(0, kind)]
    case _ => []
  }

  lemma LogGrows(s: State, step: Step, id: nat)
    requires Possible(s, step)
    ensures After(s, step).log == s.log + Added(s, step) && |Added(s, step)| <= 1
    ensures Trail(After(s, step).log, id)
            == Trail(s.log, id) + if Added(s, step) != [] && Added(s, step)[0].id == id then Added(s, step) else []
  {
    hide Trail;
    if Added(s, step) != [] {
      TrailAppend(s.log, Added(s, step)[0], id);
      assert Added(s, step) == [Added(s, step)[0]];
    } else {
      assert s.log + [] == s.log;
    }
  }

  ghost predicate ClaimOk(o: Operation) {
    o.stage.Claimed? ==> o.stage.reported || o.stage.outcome.Denied?
  }

  /** A step adds to an operation's records exactly what its new stage calls for. */
  lemma ExpectedGrows(s: State, step: Step, i: nat)
    requires Possible(s, step) && i < |s.operations| && ClaimOk(s.operations[i])
    ensures i < |After(s, step).operations| && ClaimOk(After(s, step).operations[i])
    ensures Expected(After(s, step).operations[i], i + 1)
            == Expected(s.operations[i], i + 1)
               + if Added(s, step) != [] && Added(s, step)[0].id == i + 1 then Added(s, step) else []
  {
    var t := After(s, step);
    if step.Number? || step.Reject? || step.i != i {
      assert t.operations[i] == s.operations[i];
      assert Added(s, step) == [] || Added(s, step)[0].id != i + 1;
    }
  }

  lemma StepTracesOne(s: State, step: Step, i: nat)
    requires Traced(s) && Possible(s, step) && i < |After(s, step).operations|
    ensures Trail(After(s, step).log, i + 1) == Expected(After(s, step).operations[i], i + 1)
    ensures ClaimOk(After(s, step).operations[i])
  {
    hide Trail;
    if i < |s.operations| {
      hide After, Expected, Added;
      LogGrows(s, step, i + 1);
      ExpectedGrows(s, step, i);
    } else {
      assert Trail(s.log, i + 1) == [];
    }
  }

  lemma NoneBeyond(s: State, step: Step, id: nat)
    requires Traced(s) && Possible(s, step) && id > |After(s, step).operations|
    ensures Trail(After(s, step).log, id) == []
  {
    hide Trail, Expected;
    LogGrows(s, step, id);
  }

  lemma StepTraced(s: State, step: Step)
    requires Traced(s) && Possible(s, step)
    ensures Traced(After(s, step))
  {
    hide Trail, After, Possible, Expected, ClaimOk;
    forall i | 0 <= i < |After(s, step).operations|
      ensures Trail(After(s, step).log, i + 1) == Expected(After(s, step).operations[i], i + 1)
      ensures ClaimOk(After(s, step).operations[i])
    {
      StepTracesOne(s, step, i);
    }
    forall id: nat | id > |After(s, step).operations|
      ensures Trail(After(s, step).log, id) == []
    {
      NoneBeyond(s, step, id);
    }
  }

  // ---- runs ----

  ghost predicate IsRun(run: seq<State>, steps: seq<Step>) {
    && |run| == |steps| + 1 && run[0] == Start
    && forall i | 0 <= i < |steps| :: Possible(run[i], steps[i]) && run[i + 1] == After(run[i], steps[i])
  }

  lemma {:induction false} RunKeepsInv(run: seq<State>, steps: seq<Step>, n: nat)
    requires IsRun(run, steps) && n < |run|
    ensures Balanced(run[n]) && Traced(run[n])
  {
    if n > 0 {
      RunKeepsInv(run, steps, n - 1);
      assert Possible(run[n - 1], steps[n - 1]) && run[n] == After(run[n - 1], steps[n - 1]);
      hide Balanced, Traced, Possible, After;
      StepBalanced(run[n - 1], steps[n - 1]);
      StepTraced(run[n - 1], steps[n - 1]);
    }
  }

  /** No callback is between its claim and its completion, and no admission is half done. */
  predicate Quiescent(s: State) {
    forall i | 0 <= i < |s.operations| :: s.operations[i].stage.Open? || s.operations[i].stage.Closed?
  }

  lemma {:induction false} CountsAddUp(operations: seq<Operation>)
    requires forall i | 0 <= i < |operations| :: operations[i].stage.Open? || operations[i].stage.Closed?
    ensures |operations| == Count(operations, Inside) + Count(operations, Scored(Success)) + Count(operations, Scored(Error))
                            + Count(operations, Scored(Cancelled)) + Count(operations, Scored(Denied))
                            + Count(operations, Scored(Abandoned))
  {
    if operations != [] {
      CountsAddUp(operations[..|operations| - 1]);
    }
  }

  /** Every admitted operation is accounted for exactly once. */
  lemma AccountsBalance(run: seq<State>, steps: seq<Step>, n: nat)
    requires IsRun(run, steps) && n < |run| && Quiescent(run[n])
    ensures var s := run[n];
            && s.authorized == s.inFlight + s.tally.succeeded + s.tally.failed + s.tally.cancelled + s.tally.abandoned
                               + s.tally.denied
            && s.inFlight == Count(s.operations, Inside) && s.inFlight >= 0
  {
    RunKeepsInv(run, steps, n);
    CountsAddUp(run[n].operations);
    hide Count;
    var s := run[n];
    assert Of(s.tally, Success) == s.tally.succeeded && Of(s.tally, Error) == s.tally.failed
           && Of(s.tally, Cancelled) == s.tally.cancelled && Of(s.tally, Denied) == s.tally.denied
           && Of(s.tally, Abandoned) == s.tally.abandoned;
  }

  /** The rule a log is checked by: allowed, then one completion, with a refusal between them just when it is denied. */
  predicate WellTrailed(trail: seq<Record>) {
    && 2 <= |trail| <= 3 && trail[0].Allowed?
    && trail[|trail| - 1].Completion? && trail[|trail| - 1].kind == trail[0].kind
    && (|trail| == 3 ==> trail[1].Refused? && trail[1].kind == trail[0].kind && trail[2].outcome.Denied?)
    && (|trail| == 2 ==> !trail[1].outcome.Denied?)
  }

  /** At any moment the records of an identifier are exactly those its operation has earned. */
  lemma TrailsAreExact(run: seq<State>, steps: seq<Step>, n: nat, i: nat)
    requires IsRun(run, steps) && n < |run| && i < |run[n].operations|
    ensures Trail(run[n].log, i + 1) == Expected(run[n].operations[i], i + 1)
    ensures run[n].operations[i].trap && run[n].operations[i].stage.Closed? ==> WellTrailed(Trail(run[n].log, i + 1))
    ensures !run[n].operations[i].trap ==> Trail(run[n].log, i + 1) == []
  {
    RunKeepsInv(run, steps, n);
    hide Balanced;
  }

  lemma ClosedStays(s: State, step: Step, i: nat)
    requires Possible(s, step) && i < |s.operations| && s.operations[i].stage.Closed?
    ensures i < |After(s, step).operations| && After(s, step).operations[i] == s.operations[i]
  {
  }

  /** Nothing follows a completion: once an operation is closed its records never change. */
  lemma {:induction false} NothingFollowsCompletion(run: seq<State>, steps: seq<Step>, m: nat, n: nat, i: nat)
    requires IsRun(run, steps) && m <= n < |run| && i < |run[m].operations| && run[m].operations[i].stage.Closed?
    ensures i < |run[n].operations| && run[n].operations[i] == run[m].operations[i]
    ensures Trail(run[n].log, i + 1) == Trail(run[m].log, i + 1)
    decreases n
  {
    hide After, Possible, Expected, Trail;
    if m < n {
      NothingFollowsCompletion(run, steps, m, n - 1, i);
      assert Possible(run[n - 1], steps[n - 1]) && run[n] == After(run[n - 1], steps[n - 1]);
      ClosedStays(run[n - 1], steps[n - 1], i);
      TrailsAreExact(run, steps, n - 1, i);
      TrailsAreExact(run, steps, n, i);
    }
  }

  lemma {:induction false} AnonymousAreRefusals(run: seq<State>, steps: seq<Step>, n: nat)
    requires IsRun(run, steps) && n < |run|
    ensures forall k | 0 <= k < |run[n].log| && run[n].log[k].id == 0 :: run[n].log[k].Refused?
  {
    if n > 0 {
      AnonymousAreRefusals(run, steps, n - 1);
      assert Possible(run[n - 1], steps[n - 1]) && run[n] == After(run[n - 1], steps[n - 1]);
      AddedIsNamed(run[n - 1], steps[n - 1]);
      hide After, Possible, Added, Trail;
      LogGrows(run[n - 1], steps[n - 1], 0);
    }
  }

  lemma AddedIsNamed(s: State, step: Step)
    requires Possible(s, step)
    ensures forall k | 0 <= k < |Added(s, step)| :: Added(s, step)[k].id == 0 ==> Added(s, step)[k].Refused?
  {
  }

  function Refusals(log: seq<Record>): nat {
    if log == [] then 0 else Refusals(log[..|log| - 1]) + One(log[|log| - 1].Refused?)
  }

  lemma RefusalsAppend(log: seq<Record>, added: seq<Record>)
    requires |added| <= 1
    ensures Refusals(log + added) == Refusals(log) + if added == [] then 0 else One(added[0].Refused?)
  {
    if added == [] {
      assert log + added == log;
    } else {
      assert (log + added)[..|log|] == log;
    }
  }

  /** Every denied write has its record, whether it was refused at once, on a recheck or after admission. */
  lemma {:induction false} DenialsAreRecorded(run: seq<State>, steps: seq<Step>, n: nat)
    requires IsRun(run, steps) && n < |run|
    ensures run[n].deniedWrites == Refusals(run[n].log)
  {
    if n > 0 {
      DenialsAreRecorded(run, steps, n - 1);
      assert Possible(run[n - 1], steps[n - 1]) && run[n] == After(run[n - 1], steps[n - 1]);
      AddedDenies(run[n - 1], steps[n - 1]);
      hide After, Possible, Added, Trail, Refusals;
      LogGrows(run[n - 1], steps[n - 1], 0);
      RefusalsAppend(run[n - 1].log, Added(run[n - 1], steps[n - 1]));
    }
  }

  lemma AddedDenies(s: State, step: Step)
    requires Possible(s, step)
    ensures After(s, step).deniedWrites
            == s.deniedWrites + if Added(s, step) == [] then 0 else One(Added(s, step)[0].Refused?)
  {
  }

  // ---- who decides the outcome ----

  /** What was asked for: each admission with its audit trap and its kind. */
  datatype Request = Request(trap: bool, kind: Kind)

  function Requests(steps: seq<Step>): seq<Request> {
    if steps == [] then []
    else
      var step := steps[|steps| - 1];
      Requests(steps[..|steps| - 1]) + if step.Number? then [Request(step.trap, step.kind)] else []
  }

  /** What the first callback of operation i said: its outcome, or denied if it was a failed re-check. */
  function FirstCall(steps: seq<Step>, i: nat): Option<Outcome> {
    if steps == [] then None
    else
      var before, step := FirstCall(steps[..|steps| - 1], i), steps[|steps| - 1];
      if before.Some? then before
      else if step.Finish? && step.i == i then Some(step.outcome)
      else if step.Recheck? && step.i == i then Some(Denied)
      else None
  }

  function OutcomeOf(stage: Stage): Option<Outcome> {
    match stage
    case Claimed(outcome, _) => Some(outcome)
    case Released(outcome) => Some(outcome)
    case Tallied(outcome) => Some(outcome)
    case Closed(outcome) => Some(outcome)
    case _ => None
  }

  lemma OutcomeStep(s: State, step: Step, i: nat)
    requires Possible(s, step) && i < |s.operations|
    ensures i < |After(s, step).operations|
    ensures var o, p := s.operations[i], After(s, step).operations[i];
            && p.trap == o.trap && p.kind == o.kind
            && OutcomeOf(p.stage) == if OutcomeOf(o.stage).Some? then OutcomeOf(o.stage)
                                     else if step == Recheck(i) then Some(Denied)
                                     else if step.Finish? && step.i == i then Some(step.outcome) else None
  {
  }

  /** Only admitted operations are called back. */
  lemma {:induction false} NoCallBefore(run: seq<State>, steps: seq<Step>, n: nat, i: nat)
    requires IsRun(run, steps) && n < |run| && i >= |run[n].operations|
    ensures FirstCall(steps[..n], i).None?
  {
    if n > 0 {
      assert steps[..n][..n - 1] == steps[..n - 1];
      assert Possible(run[n - 1], steps[n - 1]) && run[n] == After(run[n - 1], steps[n - 1]);
      NoCallBefore(run, steps, n - 1, i);
    }
  }

  /** In every run an operation is what was asked for, and its outcome is that of the first callback that reached it. */
  lemma {:induction false} OutcomeIsFirst(run: seq<State>, steps: seq<Step>, n: nat, i: nat)
    requires IsRun(run, steps) && n < |run| && i < |run[n].operations|
    ensures OutcomeOf(run[n].operations[i].stage) == FirstCall(steps[..n], i)
  {
    if n > 0 {
      var s, step := run[n - 1], steps[n - 1];
      assert Possible(s, step) && run[n] == After(s, step);
      assert steps[..n][..n - 1] == steps[..n - 1];
      if i < |s.operations| {
        OutcomeIsFirst(run, steps, n - 1, i);
        hide Possible, After, OutcomeOf;
        OutcomeStep(s, step, i);
      } else {
        NoCallBefore(run, steps, n - 1, i);
      }
    }
  }

  lemma {:induction false} RequestsAre(run: seq<State>, steps: seq<Step>, n: nat)
    requires IsRun(run, steps) && n < |run|
    ensures |run[n].operations| == |Requests(steps[..n])|
    ensures forall i | 0 <= i < |run[n].operations| ::
              run[n].operations[i].trap == Requests(steps[..n])[i].trap && run[n].operations[i].kind == Requests(steps[..n])[i].kind
  {
    if n > 0 {
      var s, step := run[n - 1], steps[n - 1];
      assert Possible(s, step) && run[n] == After(s, step);
      assert steps[..n][..n - 1] == steps[..n - 1];
      RequestsAre(run, steps, n - 1);
      forall i | 0 <= i < |s.operations|
        ensures i < |run[n].operations| && run[n].operations[i].trap == s.operations[i].trap
        ensures run[n].operations[i].kind == s.operations[i].kind
      {
        OutcomeStep(s, step, i);
      }
    }
  }

  /** A closed operation's records: admitted, refused just if a re-check came first, and completed as its first callback said. */
  lemma RecordsTellFirst(run: seq<State>, steps: seq<Step>, n: nat, i: nat)
    requires IsRun(run, steps) && n < |run| && i < |run[n].operations| && run[n].operations[i].stage.Closed?
    ensures i < |Requests(steps[..n])| && FirstCall(steps[..n], i).Some?
    ensures var request, outcome := Requests(steps[..n])[i], FirstCall(steps[..n], i).value;
            Trail(run[n].log, i + 1)
            == if !request.trap then []
               else [Allowed(i + 1, request.kind)] + (if outcome.Denied? then [Refused(i + 1, request.kind)] else [])
                    + [Completion(i + 1, request.kind, outcome)]
  {
    TrailsAreExact(run, steps, n, i);
    OutcomeIsFirst(run, steps, n, i);
    RequestsAre(run, steps, n);
    hide Trail, Requests, FirstCall;
  }

  /** How many of the first m operations had this outcome as their first callback. */
  function Decided(steps: seq<Step>, m: nat, outcome: Outcome): nat {
    if m == 0 then 0 else Decided(steps, m - 1, outcome) + One(FirstCall(steps, m - 1) == Some(outcome))
  }

  lemma {:induction false} ScoredIsDecided(run: seq<State>, steps: seq<Step>, n: nat, m: nat, outcome: Outcome)
    requires IsRun(run, steps) && n < |run| && Quiescent(run[n]) && m <= |run[n].operations|
    ensures Count(run[n].operations[..m], Scored(outcome)) == Decided(steps[..n], m, outcome)
  {
    if m > 0 {
      ScoredIsDecided(run, steps, n, m - 1, outcome);
      OutcomeIsFirst(run, steps, n, m - 1);
      assert run[n].operations[..m][..m - 1] == run[n].operations[..m - 1];
      hide FirstCall;
    }
  }

  /** At every quiescent point each published total is the number of operations whose first callback was of that kind. */
  lemma TotalsCountFirstCalls(run: seq<State>, steps: seq<Step>, n: nat)
    requires IsRun(run, steps) && n < |run| && Quiescent(run[n])
    ensures var m, tally := |Requests(steps[..n])|, run[n].tally;
            && run[n].authorized == m
            && tally.succeeded == Decided(steps[..n], m, Success) && tally.failed == Decided(steps[..n], m, Error)
            && tally.cancelled == Decided(steps[..n], m, Cancelled) && tally.denied == Decided(steps[..n], m, Denied)
            && tally.abandoned == Decided(steps[..n], m, Abandoned)
  {
    RunKeepsInv(run, steps, n);
    RequestsAre(run, steps, n);
    var s, m := run[n], |run[n].operations|;
    assert s.operations[..m] == s.operations;
    forall outcome
      ensures Of(s.tally, outcome) == Decided(steps[..n], m, outcome)
    {
      ScoredIsDecided(run, steps, n, m, outcome);
    }
    assert Of(s.tally, Success) == s.tally.succeeded && Of(s.tally, Error) == s.tally.failed
           && Of(s.tally, Cancelled) == s.tally.cancelled && Of(s.tally, Denied) == s.tally.denied
           && Of(s.tally, Abandoned) == s.tally.abandoned;
  }

  // ---- every refusal counts ----

  const Unreported := (o: Operation) => o.stage.Claimed? && !o.stage.reported

  /** Admissions refused and re-checks failed. */
  function Refusing(steps: seq<Step>): nat {
    if steps == [] then 0
    else Refusing(steps[..|steps| - 1]) + One(steps[|steps| - 1].Reject? || steps[|steps| - 1].Recheck?)
  }

  lemma RefusingStep(s: State, step: Step)
    requires Possible(s, step) && forall i | 0 <= i < |s.operations| :: ClaimOk(s.operations[i])
    ensures After(s, step).deniedWrites + Count(After(s, step).operations, Unreported)
            == s.deniedWrites + Count(s.operations, Unreported) + One(step.Reject? || step.Recheck?)
  {
    hide Count;
    if step.Number? {
      CountAppend(s.operations, Unreported, Operation(step.trap, step.kind, Numbered));
    } else if !step.Reject? {
      StepMoves(s, step);
      CountUpdate(s.operations, Unreported, step.i, After(s, step).operations[step.i]);
    }
  }

  lemma {:induction false} RefusingAdds(run: seq<State>, steps: seq<Step>, n: nat)
    requires IsRun(run, steps) && n < |run|
    ensures run[n].deniedWrites + Count(run[n].operations, Unreported) == Refusing(steps[..n])
  {
    if n > 0 {
      RefusingAdds(run, steps, n - 1);
      RunKeepsInv(run, steps, n - 1);
      assert steps[..n][..n - 1] == steps[..n - 1];
      assert Possible(run[n - 1], steps[n - 1]) && run[n] == After(run[n - 1], steps[n - 1]);
      hide Possible, After, Count, Balanced;
      RefusingStep(run[n - 1], steps[n - 1]);
    }
  }

  lemma {:induction false} NoneUnreported(operations: seq<Operation>)
    requires forall i | 0 <= i < |operations| :: operations[i].stage.Open? || operations[i].stage.Closed?
    ensures Count(operations, Unreported) == 0
  {
    if operations != [] {
      NoneUnreported(operations[..|operations| - 1]);
    }
  }

  /** At every quiescent point the denied writes are the refused admissions and the failed re-checks. */
  lemma DenialsCountRefusals(run: seq<State>, steps: seq<Step>, n: nat)
    requires IsRun(run, steps) && n < |run| && Quiescent(run[n])
    ensures run[n].deniedWrites == Refusing(steps[..n])
  {
    RefusingAdds(run, steps, n);
    NoneUnreported(run[n].operations);
  }
}
