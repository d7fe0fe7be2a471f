/** The client's answer, from the history of its put at its runtime. */
module PutOutcomes {
  import opened Basics
  import opened PutLifecycle
  import C = PutCourses
  import D = PutDispatch
  import DT = PutTheorems
  import Q = QueueRuns
  import X = QueuedExecution
  import QueueCore

  // ---- what a run of the whole system is for one runtime ----

  ghost function StopAt(s: System, p: PutId, r: RuntimeId): seq<D.Step> {
    if p in s.home && s.home[p] == r then [D.OwnStep(p, D.StopRequest)] else []
  }

  /** The steps of runtime r that a step of the system makes. */
  ghost function Moves(s: System, step: Step, r: RuntimeId): seq<D.Step>
    requires Possible(s, step)
  {
    match step
    case RuntimeStep(q, d) => if q == r then [d] else []
    case SubmitPut(p, work, now, _) =>
      if QueueCore.Submit(s.queue.q, work, now).1.Admitted? then [] else StopAt(s, p, r)
    case QueueStep(q, _) => if Told(s.queue, q).Some? then StopAt(s, s.of[Told(s.queue, q).value], r) else []
    case DispatchStep(p, d, _) => if s.home[p] == r then [d] else []
    case PutStep(p, own) => if X.Apply(s.puts[p], own).exec.stopped then StopAt(s, p, r) else []
    case _ => []
  }

  datatype Birth = Birth(confirms: bool, transform: Option<D.Linear>)

  /** How the runtime was created. */
  ghost function BornAs(limits: QueueCore.Limits, steps: seq<Step>, r: RuntimeId): Option<Birth> {
    if steps == [] then None
    else
      var before, step := steps[..|steps| - 1], steps[|steps| - 1];
      if step.NewRuntime? && step.r == r && Possible(After(limits, before), step)
      then Some(Birth(step.confirms, step.transform)) else BornAs(limits, before, r)
  }

  ghost function TraceOf(limits: QueueCore.Limits, steps: seq<Step>, r: RuntimeId): seq<D.Step> {
    if steps == [] then []
    else
      var before, step := steps[..|steps| - 1], steps[|steps| - 1];
      TraceOf(limits, before, r)
      + if Possible(After(limits, before), step) then Moves(After(limits, before), step, r) else []
  }

  lemma OneMove(d: D.State, step: D.Step)
    ensures D.After(d, [step]) == D.Apply(d, step) && D.After(d, []) == d
  {
    assert [step][..0] == [];
  }

  lemma MoreMoves(d: D.State, steps: seq<D.Step>, more: seq<D.Step>)
    requires |more| <= 1
    ensures D.After(d, steps + more) == D.After(D.After(d, steps), more)
  {
    if more == [] {
      assert steps + more == steps;
    } else {
      assert (steps + more)[..|steps|] == steps && more == [more[0]];
      OneMove(D.After(d, steps), more[0]);
    }
  }

  lemma StopMoves(s: System, p: PutId, r: RuntimeId, x: X.State)
    requires Housed(s, p) && r in s.runtimes
    ensures var t := MoveHandle(s, p, x);
            r in t.runtimes && t.runtimes[r] == D.After(s.runtimes[r], if x.exec.stopped then StopAt(s, p, r) else [])
  {
    hide D.Apply;
    OneMove(s.runtimes[r], D.OwnStep(p, D.StopRequest));
  }

  lemma TellsStop(s: System, p: PutId, message: string)
    requires HandlesOk(s) && p in s.puts
    ensures Tell(s.puts[p], message).exec.stopped
    ensures X.Apply(Tell(s.puts[p], message), X.SubmitReturns(0)).exec.stopped
  {
    ToldStops(s.puts[p], X.SendError(message));
  }

  /** What a step of the system does to the runtimes. */
  ghost predicate MovesRuntime(s: System, t: System, moves: seq<D.Step>, r: RuntimeId) {
    && |moves| <= 1
    && if r in s.runtimes then r in t.runtimes && t.runtimes[r] == D.After(s.runtimes[r], moves) else r !in t.runtimes && moves == []
  }

  lemma StillThere(s: System, t: System, r: RuntimeId)
    requires t.runtimes == s.runtimes
    ensures MovesRuntime(s, t, [], r)
  {
  }

  /** A handle moves, and perhaps stops its request. */
  lemma HandleMoves(s: System, p: PutId, r: RuntimeId, x: X.State)
    requires Housed(s, p)
    ensures MovesRuntime(s, MoveHandle(s, p, x), if x.exec.stopped then StopAt(s, p, r) else [], r)
  {
    hide D.After, D.Apply;
    if r in s.runtimes {
      StopMoves(s, p, r, x);
    }
  }

  lemma SubmitMoves(s: System, step: Step, r: RuntimeId)
    requires HomesOk(s) && HandlesOk(s) && Possible(s, step) && step.SubmitPut?
    ensures MovesRuntime(s, Effect(s, step), Moves(s, step, r), r)
  {
    hide HomesOk, HandlesOk, Q.Apply, QueueCore.Submit, X.Apply, MovesRuntime, Halt, Tell;
    var q := s.(queue := Q.Apply(s.queue, Q.Submit(step.work, step.now)));
    if QueueCore.Submit(s.queue.q, step.work, step.now).1.Admitted? {
      StillThere(s, Effect(s, step), r);
    } else {
      TellsStop(s, step.p, step.message);
      HandleMoves(q, step.p, r, X.Apply(Tell(s.puts[step.p], step.message), X.SubmitReturns(0)));
      SameSource(s, q, Effect(s, step), Moves(s, step, r), r);
    }
  }

  lemma SameSource(s: System, q: System, t: System, moves: seq<D.Step>, r: RuntimeId)
    requires q.runtimes == s.runtimes && MovesRuntime(q, t, moves, r)
    ensures MovesRuntime(s, t, moves, r)
  {
  }

  lemma QueueMovesRuntime(s: System, step: Step, r: RuntimeId)
    requires HomesOk(s) && HandlesOk(s) && Possible(s, step) && step.QueueStep?
    ensures MovesRuntime(s, Effect(s, step), Moves(s, step, r), r)
  {
    hide HomesOk, HandlesOk, Q.Apply, Q.Possible, X.Apply, MovesRuntime, Halt, Tell, Told;
    if Told(s.queue, step.queueStep).Some? {
      var p := s.of[Told(s.queue, step.queueStep).value];
      var q := s.(queue := Q.Apply(s.queue, step.queueStep));
      TellsStop(s, p, step.message);
      HandleMoves(q, p, r, Tell(s.puts[p], step.message));
      SameSource(s, q, Effect(s, step), Moves(s, step, r), r);
    } else {
      StillThere(s, Effect(s, step), r);
    }
  }

  lemma OwnMoves(s: System, step: Step, r: RuntimeId)
    requires Possible(s, step) && step.PutStep?
    ensures MovesRuntime(s, Effect(s, step), Moves(s, step, r), r)
  {
    hide Q.Apply, X.Apply, X.Possible, Halt, CancelledBy, D.After;
    HandleMoves(s, step.p, r, X.Apply(s.puts[step.p], step.own));
  }

  lemma RuntimeMoves(s: System, step: Step, r: RuntimeId)
    requires Possible(s, step) && (step.RuntimeStep? || step.DispatchStep?)
    ensures MovesRuntime(s, Effect(s, step), Moves(s, step, r), r)
  {
    hide D.Effect, D.Possible, X.Apply, InRun, Runs, DT.Shared, Admission, D.After;
    if r in s.runtimes {
      OneMove(s.runtimes[r], step.step);
    }
  }

  lemma MovesAre(s: System, step: Step, r: RuntimeId)
    requires Inv(s) && Possible(s, step) && !(step.NewRuntime? && step.r == r)
    ensures MovesRuntime(s, Effect(s, step), Moves(s, step, r), r)
  {
    hide QueueOk, RuntimesOk, CoupledOk, CancelledOk, HomesOk, HandlesOk, MovesRuntime;
    match step
    case SubmitPut(_, _, _, _) => SubmitMoves(s, step, r);
    case QueueStep(_, _) => QueueMovesRuntime(s, step, r);
    case PutStep(_, _) => OwnMoves(s, step, r);
    case RuntimeStep(_, _) => RuntimeMoves(s, step, r);
    case DispatchStep(_, _, _) => RuntimeMoves(s, step, r);
    case NewPut(_) => StillThere(s, Effect(s, step), r);
    case NewRuntime(_, _, _) => AnotherIsBorn(s, step, r);
  }

  lemma AnotherIsBorn(s: System, step: Step, r: RuntimeId)
    requires Possible(s, step) && step.NewRuntime? && step.r != r
    ensures MovesRuntime(s, Effect(s, step), [], r)
  {
  }

  /** The runtime, if it exists, is where its trace leads. */
  ghost predicate Traced(s: System, b: Option<Birth>, trace: seq<D.Step>, r: RuntimeId) {
    if r in s.runtimes then b.Some? && s.runtimes[r] == D.After(D.Fresh(b.value.confirms, b.value.transform), trace)
    else b.None? && trace == []
  }

  lemma TraceGrows(s: System, t: System, b: Option<Birth>, trace: seq<D.Step>, moves: seq<D.Step>, r: RuntimeId)
    requires Traced(s, b, trace, r) && MovesRuntime(s, t, moves, r)
    ensures Traced(t, b, trace + moves, r)
  {
    hide D.After;
    if r in s.runtimes {
      MoreMoves(D.Fresh(b.value.confirms, b.value.transform), trace, moves);
    }
  }

  /** In every run each runtime is where its own steps, from its creation, lead. */
  lemma {:induction false} RuntimeIsItsTrace(limits: QueueCore.Limits, steps: seq<Step>, r: RuntimeId)
    ensures Traced(After(limits, steps), BornAs(limits, steps, r), TraceOf(limits, steps, r), r)
    decreases |steps|
  {
    if steps != [] {
      var before, step := steps[..|steps| - 1], steps[|steps| - 1];
      var s := After(limits, before);
      RuntimeIsItsTrace(limits, before, r);
      RunKeepsInv(limits, before);
      hide Inv, Possible, Effect, Moves, Traced, MovesRuntime;
      if Possible(s, step) {
        if step.NewRuntime? && step.r == r {
          BornNow(s, step, r, BornAs(limits, before, r), TraceOf(limits, before, r));
        } else {
          MovesAre(s, step, r);
          TraceGrows(s, Effect(s, step), BornAs(limits, before, r), TraceOf(limits, before, r), Moves(s, step, r), r);
        }
      } else {
        assert TraceOf(limits, before, r) + [] == TraceOf(limits, before, r);
      }
    } else {
      assert After(limits, steps).runtimes == map[];
    }
  }

  lemma BornNow(s: System, step: Step, r: RuntimeId, b: Option<Birth>, trace: seq<D.Step>)
    requires Possible(s, step) && step.NewRuntime? && step.r == r && Traced(s, b, trace, r)
    ensures Traced(Effect(s, step), Some(Birth(step.confirms, step.transform)), trace + Moves(s, step, r), r)
  {
  }

  // ---- the client's answer ----

  /** The put's history at its runtime is that of a success. */
  ghost predicate Deserved(limits: QueueCore.Limits, steps: seq<Step>, p: PutId, r: RuntimeId) {
    var b := BornAs(limits, steps, r);
    b.Some?
    && C.Succeeds(C.CourseOf(D.Fresh(b.value.confirms, b.value.transform), TraceOf(limits, steps, r), p), b.value.confirms)
  }

  /**
   A put whose dispatch answered the client itself: the call it made is a reply if and only if it passed every check, Redis
   acknowledged the write, the deadline had not passed at the last look and, if the endpoint confirms, an equal later sample
   of the same reader epoch came first.  Once the answer is given the client has heard success exactly then, or by an
   error without a message.
   */
  lemma SuccessIff(limits: QueueCore.Limits, steps: seq<Step>, p: PutId)
    requires var s := After(limits, steps);
             && p in s.puts && Housed(s, p) && Dispatched(s, p).place.Returned? && !Dispatched(s, p).answer.Elsewhere?
    ensures var s := After(limits, steps);
            var x := s.puts[p];
            && (Replies(x) <==> Deserved(limits, steps, p, s.home[p]))
            && (x.winners != [] && x.winners[0].answered ==>
                  (x.answers == [X.Reply] <==> Deserved(limits, steps, p, s.home[p]) || x.winners[0].call == X.SendError("")))
  {
    var s := After(limits, steps);
    RunKeepsInv(limits, steps);
    RuntimeIsItsTrace(limits, steps, s.home[p]);
    hide After, BornAs, TraceOf, QueueOk, RuntimesOk, CoupledOk, CancelledOk, HomesOk, D.After, C.CourseOf, C.Succeeds, X.Inv,
         Matches, Replies;
    MatchOf(s, p);
    var b := BornAs(limits, steps, s.home[p]).value;
    C.RepliedIff(b.confirms, b.transform, TraceOf(limits, steps, s.home[p]), p);
    AnswerIs(s.puts[p], Dispatched(s, p), Deserved(limits, steps, p, s.home[p]));
  }

  lemma AnswerIs(x: X.State, put: D.Put, deserved: bool)
    requires X.Inv(x) && Matches(x, put) && (put.answer.Replied? <==> deserved)
    ensures Replies(x) <==> deserved
    ensures x.winners != [] && x.winners[0].answered ==>
              (x.answers == [X.Reply] <==> deserved || x.winners[0].call == X.SendError(""))
  {
  }
}
