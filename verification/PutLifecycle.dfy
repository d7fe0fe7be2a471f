/**
 The operation queue, the request handles of the puts queued in it and the write paths of the runtimes that
 dispatch them, composed.  The queue's failure callbacks and the dispatch finish the handle, a finished handle is
 what the dispatch sees as a stopped request, the handle's cancellations call the queue, and a worker's run is
 over when its dispatch has returned or thrown.
 */
module PutLifecycle {
  import opened Basics
  import Q = QueueRuns
  import X = QueuedExecution
  import D = PutDispatch
  import DT = PutTheorems
  import QueueCore
  import QueueTheorems

  type PutId = nat
  type RuntimeId = nat

  /** `of` says which put a task belongs to, `home` which runtime a put arrived at. */
  datatype System = System(
    queue: Q.State, puts: map<PutId, X.State>, of: map<QueueCore.TaskId, PutId>,
    runtimes: map<RuntimeId, D.State>, home: map<PutId, RuntimeId>)

  datatype Step =
    | NewRuntime(r: RuntimeId, confirms: bool, transform: Option<D.Linear>)
    | RuntimeStep(r: RuntimeId, step: D.Step)                // reload, retirement, source, or admission of a put
    | NewPut(p: PutId)                                       // handlePut creates the handle
    | SubmitPut(p: PutId, work: QueueCore.Work, now: int, message: string)
    | QueueStep(queueStep: Q.Step, message: string)
    | DispatchStep(p: PutId, step: D.Step, message: string)  // the worker that runs the put goes on
    | PutStep(p: PutId, own: X.Step)

  // ---- the parts ----

  ghost predicate Housed(s: System, p: PutId) {
    p in s.home && s.home[p] in s.runtimes && p in s.runtimes[s.home[p]].puts
  }

  ghost function Dispatched(s: System, p: PutId): D.Put
    requires Housed(s, p)
  {
    s.runtimes[s.home[p]].puts[p]
  }

  /** The put a task was queued for. */
  ghost predicate Serves(s: System, id: QueueCore.TaskId) {
    id in s.of && s.of[id] in s.puts && Housed(s, s.of[id])
  }

  /** Steps by which a put is admitted before it has a handle. */
  ghost predicate Admission(step: D.Step) {
    step.OwnStep? && (step.own.Arrive? || step.own.CheckCommitted? || step.own.ReadEpoch?)
  }

  /** Steps dispatchPut takes for this put. */
  ghost predicate Runs(step: D.Step, p: PutId) {
    match step
    case OwnStep(q, own) =>
      q == p && (own.Begin? || own.Capture? || own.NoteReader? || own.Snapshot? || own.Conclude? || own.Decide? || own.Throw?)
    case FenceStep(q, _) => q == p
    case WriteStep(q, _) => q == p
    case Wake(q) => q == p
    case _ => false
  }

  /** A worker is in the run of the put's task. */
  ghost predicate InRun(s: System, p: PutId) {
    exists id | id in s.of && s.of[id] == p :: Q.Running(s.queue, id)
  }

  /** The task whose failure callback a queue step calls, if any. */
  ghost function Told(q: Q.State, step: Q.Step): Option<QueueCore.TaskId> {
    match step
    case Notify(id) => Some(id)
    case Return(w, threw) =>
      if w < |q.workers| && q.workers[w].Busy? && (q.workers[w].late || threw) then Some(q.workers[w].id) else None
    case _ => None
  }

  /** A run returns when its dispatch has returned, and throws when that has thrown. */
  ghost predicate QueueMay(s: System, step: Q.Step) {
    && !step.Submit? && !step.Cancel?
    && Q.Possible(s.queue, step)
    && (Told(s.queue, step).Some? ==> Serves(s, Told(s.queue, step).value))
    && (step.Return? && !s.queue.workers[step.w].late ==>
          var id := s.queue.workers[step.w].id;
          Serves(s, id) && Dispatched(s, s.of[id]).place == if step.threw then D.Thrown else D.Returned)
  }

  ghost predicate Possible(s: System, step: Step) {
    match step
    case NewRuntime(r, _, _) => r !in s.runtimes
    case RuntimeStep(r, d) =>
      && r in s.runtimes && D.Possible(s.runtimes[r], d)
      && (DT.Shared(d) || (Admission(d) && (d.own.Arrive? ==> d.p !in s.home)))
    case NewPut(p) => p !in s.puts && Housed(s, p) && Dispatched(s, p).place.Queued?
    case SubmitPut(p, _, _, _) => p in s.puts && s.puts[p].submitter.Submitting? && Housed(s, p)
    case QueueStep(q, _) => QueueMay(s, q)
    case DispatchStep(p, d, _) =>
      p in s.puts && Housed(s, p) && InRun(s, p) && Runs(d, p) && D.Possible(s.runtimes[s.home[p]], d)
    case PutStep(p, own) => p in s.puts && Housed(s, p) && !own.SubmitReturns? && !own.Finish? && X.Possible(s.puts[p], own)
  }

  /** The dispatch of a put sees that its request is stopped. */
  ghost function Halt(s: D.State, p: PutId): D.State {
    D.Apply(s, D.OwnStep(p, D.StopRequest))
  }

  /** A handle moves; if it is stopped, so is the request its dispatch looks at. */
  ghost function MoveHandle(s: System, p: PutId, x: X.State): System
    requires Housed(s, p)
  {
    var r := s.home[p];
    s.(puts := s.puts[p := x], runtimes := if x.exec.stopped then s.runtimes[r := Halt(s.runtimes[r], p)] else s.runtimes)
  }

  ghost function Tell(x: X.State, message: string): X.State {
    X.Apply(x, X.Finish(X.SendError(message)))
  }

  /** The id a handle step passes to the queue's cancel, if it calls it. */
  ghost function CancelledBy(x: X.State, own: X.Step): Option<QueueCore.TaskId>
    requires X.Possible(x, own)
  {
    match own
    case PeerCancels => Some(x.peer.ticket)
    case CancelOwn => if x.submitter.saw then Some(x.submitter.id) else None
    case _ => None
  }

  /** What the dispatch says to the handle when it answers. */
  ghost function Answer(put: D.Put, message: string): X.Call {
    if put.answer.Replied? then X.SendReply else X.SendError(message)
  }

  ghost function Effect(s: System, step: Step): System
    requires Possible(s, step)
  {
    match step
    case NewRuntime(r, confirms, transform) => s.(runtimes := s.runtimes[r := D.Fresh(confirms, transform)])
    case RuntimeStep(r, d) =>
      s.(runtimes := s.runtimes[r := D.Effect(s.runtimes[r], d)],
         home := if d.OwnStep? && d.own.Arrive? then s.home[d.p := r] else s.home)
    case NewPut(p) => s.(puts := s.puts[p := X.Begin])
    case SubmitPut(p, work, now, message) =>
      var queue := Q.Apply(s.queue, Q.Submit(work, now));
      if QueueCore.Submit(s.queue.q, work, now).1.Admitted? then
        var id := QueueCore.Submit(s.queue.q, work, now).1.id;
        s.(queue := queue, of := s.of[id := p], puts := s.puts[p := X.Apply(s.puts[p], X.SubmitReturns(id))])
      else
        MoveHandle(s.(queue := queue), p, X.Apply(Tell(s.puts[p], message), X.SubmitReturns(0)))
    case QueueStep(q, message) =>
      var queue := Q.Apply(s.queue, q);
      if Told(s.queue, q).Some? then
        var p := s.of[Told(s.queue, q).value];
        MoveHandle(s.(queue := queue), p, Tell(s.puts[p], message))
      else s.(queue := queue)
    case DispatchStep(p, d, message) =>
      var r := s.home[p];
      var runtime := D.Effect(s.runtimes[r], d);
      var t := s.(runtimes := s.runtimes[r := runtime]);
      if p in runtime.puts && runtime.puts[p].stopped && !s.runtimes[r].puts[p].stopped
      then t.(puts := s.puts[p := X.Apply(s.puts[p], X.Finish(Answer(runtime.puts[p], message)))])
      else t
    case PutStep(p, own) =>
      var t := MoveHandle(s, p, X.Apply(s.puts[p], own));
      if CancelledBy(s.puts[p], own).Some? then
        t.(queue := Q.Apply(s.queue, Q.Cancel(CancelledBy(s.puts[p], own).value)))
      else t
  }

  ghost function Apply(s: System, step: Step): System {
    if Possible(s, step) then Effect(s, step) else s
  }

  ghost function After(limits: QueueCore.Limits, steps: seq<Step>): System {
    if steps == [] then System(Q.Start(limits), map[], map[], map[], map[])
    else Apply(After(limits, steps[..|steps| - 1]), steps[|steps| - 1])
  }

  // ---- invariant ----

  ghost predicate QueueOk(q: Q.State) {
    Q.StateInv(q) && 0 !in q.owed
  }

  ghost predicate HandlesOk(s: System) {
    forall p | p in s.puts :: X.Inv(s.puts[p])
  }

  ghost predicate RuntimesOk(s: System) {
    forall r | r in s.runtimes :: DT.Inv(s.runtimes[r])
  }

  /** The call that finished the handle, or is finishing it, is a reply. */
  ghost predicate Replies(x: X.State) {
    (x.holder.Finishing? && x.holder.call.SendReply?) || (x.winners != [] && x.winners[0].call.SendReply?)
  }

  /** An admitted put: a stopped request is a stopped handle, and the handle replies exactly if the dispatch did. */
  ghost predicate Matches(x: X.State, put: D.Put) {
    && (put.stopped <==> x.exec.stopped) && !put.place.Arriving? && !put.place.Admitting?
    && (Replies(x) <==> put.answer.Replied?)
  }

  /** Every put is at one runtime, and nothing stops it before it has a handle. */
  ghost predicate HomesOk(s: System) {
    && (forall r | r in s.runtimes :: AtHome(s, r))
    && (forall p | p in s.home :: HomeOk(s, p))
    && s.puts.Keys <= s.home.Keys
  }

  ghost predicate AtHome(s: System, r: RuntimeId)
    requires r in s.runtimes
  {
    forall p | p in s.runtimes[r].puts :: p in s.home && s.home[p] == r
  }

  ghost predicate HomeOk(s: System, p: PutId) {
    && Housed(s, p)
    && var put := Dispatched(s, p);
       if p in s.puts then Matches(s.puts[p], put) else put.place.Returned? || !put.stopped
  }

  ghost predicate Stopped(s: System, id: QueueCore.TaskId) {
    id in s.of && s.of[id] in s.puts && s.puts[s.of[id]].exec.stopped
  }

  /** Every submitted task belongs to a put, and one that returned or was told has a stopped handle. */
  ghost predicate CoupledOk(s: System) {
    forall i | 0 <= i < |s.queue.log| ::
      var e := s.queue.log[i];
      && (e.Submitted? ==> e.id in s.of && s.of[e.id] in s.puts)
      && (e.Returned? ==> Stopped(s, e.id))
      && (e.Notified? ==> Stopped(s, e.id))
  }

  /** Nothing cancelled can still run. */
  ghost predicate Dead(q: QueueCore.Queue, id: QueueCore.TaskId) {
    id in q.tasks ==> q.tasks[id].failed
  }

  /** Every id the queue gave out belongs to a put with a handle. */
  ghost predicate CancelledOk(s: System) {
    && (forall id: nat | 1 <= id <= s.queue.q.nextId :: id in s.of && s.of[id] in s.puts)
    && (forall id | id in s.of :: id <= s.queue.q.nextId)
    && (forall p | p in s.puts :: KnownIds(s.queue.q, s.puts[p]))
  }

  /** Tickets and ids held by a handle were given out by the queue, and those it cancelled are dead. */
  ghost predicate KnownIds(q: QueueCore.Queue, x: X.State) {
    && x.exec.ticket <= q.nextId
    && (!x.submitter.Submitting? ==> x.submitter.id <= q.nextId)
    && (x.peer.Loaded? || x.peer.Handled? ==> x.peer.ticket <= q.nextId)
    && (forall id | id in x.cancels :: id <= q.nextId && Dead(q, id))
  }

  /** The queue r comes after q. */
  ghost predicate Later(q: QueueCore.Queue, r: QueueCore.Queue) {
    q.nextId <= r.nextId && forall id: nat | id <= q.nextId && Dead(q, id) :: Dead(r, id)
  }

  lemma KnownStays(q: QueueCore.Queue, r: QueueCore.Queue, x: X.State)
    requires Later(q, r) && KnownIds(q, x)
    ensures KnownIds(r, x)
  {
  }

  ghost predicate Inv(s: System) {
    && QueueOk(s.queue)
    && HandlesOk(s)
    && RuntimesOk(s)
    && HomesOk(s)
    && CoupledOk(s)
    && CancelledOk(s)
  }

  /** What a queue step does to the log, to ids and to condemned tasks. */
  lemma QueueMoves(q: Q.State, step: Q.Step)
    requires Q.StateInv(q)
    ensures var t := Q.Apply(q, step);
            Q.StateInv(t) && Q.Extends(q, t) && Later(q.q, t.q) && (0 !in q.owed ==> 0 !in t.owed)
            && (!step.Submit? ==> t.q.nextId == q.q.nextId)
  {
    hide Q.StateInv, Q.Possible, Q.Effect;
    QueueTheorems.StepKeeps(q, step);
    if Q.Possible(q, step) {
      EffectMoves(q, step);
      OwedMoves(q, step);
    }
  }

  /** Only submitted tasks are ever told, and ids are given out at submission. */
  lemma OwedMoves(q: Q.State, step: Q.Step)
    requires Q.StateInv(q) && Q.Possible(q, step)
    ensures 0 !in q.owed ==> 0 !in Q.Effect(q, step).owed
    ensures !step.Submit? ==> Q.Effect(q, step).q.nextId == q.q.nextId
  {
    TasksArePositive(q.q);
    if step.Take? {
      Q.TakeEffect(q.q, step.now);
    }
    hide Q.WorkersOk, Q.StartsOk, Q.NoticesOk, Q.OutcomesOk, QueueCore.CountsOk, QueueCore.TokensOk, QueueCore.LanesOk,
         QueueCore.TasksOk;
  }

  lemma TasksArePositive(q: QueueCore.Queue)
    requires QueueCore.Inv(q)
    ensures 0 !in q.tasks
  {
    assert forall id | id in q.tasks :: QueueCore.TaskOk(q, id);
  }

  lemma EffectMoves(q: Q.State, step: Q.Step)
    requires Q.StateInv(q) && Q.Possible(q, step)
    ensures var t := Q.Effect(q, step);
            Q.Extends(q, t) && Later(q.q, t.q)
  {
    hide Q.WorkersOk, Q.StartsOk, Q.NoticesOk, Q.OutcomesOk, QueueCore.CountsOk, QueueCore.TokensOk, QueueCore.LanesOk,
         QueueCore.TasksOk;
    hide QueueCore.Submit, QueueCore.Take, QueueCore.Finish, QueueCore.Expire, QueueCore.Cancel;
    match step
    case Submit(work, now) =>
      Q.SubmitEffect(q.q, work, now);
      assert Q.Effect(q, step).q == QueueCore.Submit(q.q, work, now).0;
    case Take(w, now) =>
      Q.TakeEffect(q.q, now);
      assert Q.Effect(q, step).q == QueueCore.Take(q.q, now).0;
    case Complete(w) => Q.FinishEffect(q.q, q.workers[w].id);
    case Expire(id, _) => Q.CondemnEffect(q.q, id);
    case Cancel(id) =>
      if QueueCore.Cancellable(q.q, id) {
        Q.CondemnEffect(q.q, id);
      }
    case _ =>
  }

  /** What the log gains. */
  ghost predicate Gains(q: Q.State, step: Q.Step) {
    var t := Q.Apply(q, step);
    forall i | |q.log| <= i < |t.log| ::
      var e := t.log[i];
      && (e.Submitted? ==> step.Submit? && QueueCore.Submit(q.q, step.work, step.now).1 == QueueCore.Admitted(e.id))
      && (e.Returned? ==> step.Return? && step.w < |q.workers| && q.workers[step.w].Busy? && e.id == q.workers[step.w].id
                          && !q.workers[step.w].late)
      && (e.Notified? ==> Told(q, step) == Some(e.id))
  }

  lemma LogGains(q: Q.State, step: Q.Step)
    ensures Gains(q, step)
  {
    hide QueueCore.Take, QueueCore.Finish, QueueCore.Expire, QueueCore.Cancel;
  }

  // ---- dispatch ----

  ghost predicate Concerns(step: D.Step, p: PutId) {
    match step
    case OwnStep(q, _) => q == p
    case FenceStep(q, _) => q == p
    case WriteStep(q, _) => q == p
    case Wake(q) => q == p
    case _ => false
  }

  lemma DispatchFrame(d: D.State, step: D.Step, p: PutId)
    requires D.Possible(d, step)
    ensures p in d.puts ==> p in D.Effect(d, step).puts
    ensures !Concerns(step, p) ==> (p in D.Effect(d, step).puts <==> p in d.puts)
                                   && (p in d.puts ==> D.Effect(d, step).puts[p] == d.puts[p])
    ensures p in D.Effect(d, step).puts && p !in d.puts ==> step.OwnStep? && step.own.Arrive?
  {
    hide D.Settle, D.FailAll, D.Invalidate, D.OwnEffect, D.FenceEffect, D.WriteEffect;
  }

  /** What a step of its own dispatch makes of a put. */
  ghost predicate Onward(step: D.Step, before: D.Put, after: D.Put) {
    && (before.stopped ==> after.stopped && after.answer == before.answer)
    && (Admission(step) || (step.OwnStep? && step.own.StopRequest?) || (!after.place.Arriving? && !after.place.Admitting?))
  }

  lemma OwnOnward(d: D.State, p: PutId, own: D.Own)
    requires D.OwnPossible(d, p, own) && p in d.puts
    ensures Onward(D.OwnStep(p, own), d.puts[p], D.OwnEffect(d, p, own))
  {
  }

  lemma FenceOnward(d: D.State, p: PutId, fence: D.Fence)
    requires p in d.puts
    ensures Onward(D.FenceStep(p, fence), d.puts[p], D.FenceEffect(d, p, fence).puts[p])
  {
    hide D.FencePasses;
  }

  lemma WriteOnward(d: D.State, p: PutId, result: D.WriteResult)
    requires p in d.puts
    ensures Onward(D.WriteStep(p, result), d.puts[p], D.WriteEffect(d, p, result).puts[p])
  {
  }

  lemma StepOnward(d: D.State, step: D.Step, p: PutId)
    requires D.Possible(d, step) && Concerns(step, p) && p in d.puts
    ensures p in D.Effect(d, step).puts && Onward(step, d.puts[p], D.Effect(d, step).puts[p])
  {
    hide D.Settle, D.FailAll, D.Invalidate, D.OwnEffect, D.FenceEffect, D.WriteEffect, D.Unlocked;
    match step
    case OwnStep(_, own) =>
      OwnOnward(d, p, own);
    case FenceStep(_, fence) =>
      FenceOnward(d, p, fence);
    case WriteStep(_, result) =>
      WriteOnward(d, p, result);
    case _ =>
  }

  /** A step changes its own put only, and a stopped request keeps its answer. */
  lemma DispatchMoves(d: D.State, step: D.Step, p: PutId)
    requires D.Possible(d, step)
    ensures p in d.puts ==> p in D.Effect(d, step).puts
    ensures p in d.puts && d.puts[p].stopped ==>
              D.Effect(d, step).puts[p].stopped && D.Effect(d, step).puts[p].answer == d.puts[p].answer
    ensures !Concerns(step, p) ==> (p in D.Effect(d, step).puts <==> p in d.puts)
                                   && (p in d.puts ==> D.Effect(d, step).puts[p] == d.puts[p])
    ensures p in D.Effect(d, step).puts && p !in d.puts ==> step.OwnStep? && step.own.Arrive?
  {
    hide D.Effect, D.Possible;
    DispatchFrame(d, step, p);
    if Concerns(step, p) && p in d.puts && d.puts[p].stopped {
      StepOnward(d, step, p);
    }
  }

  lemma HaltIs(d: D.State, p: PutId, q: PutId)
    requires p in d.puts
    ensures q in Halt(d, p).puts <==> q in d.puts
    ensures q in d.puts && q != p ==> Halt(d, p).puts[q] == d.puts[q]
    ensures Halt(d, p).puts[p].stopped && Halt(d, p).puts[p].place == d.puts[p].place
    ensures if d.puts[p].stopped then Halt(d, p).puts[p] == d.puts[p] else Halt(d, p).puts[p].answer.Elsewhere?
    ensures Halt(d, p).writes == d.writes && Halt(d, p).samples == d.samples && Halt(d, p).confirms == d.confirms
  {
  }

  /** A returned dispatch has answered. */
  lemma ReturnedIsStopped(d: D.State, p: PutId)
    requires DT.Inv(d) && p in d.puts && d.puts[p].place.Returned?
    ensures d.puts[p].stopped
  {
    DT.PutFacts(d, p);
  }

  /** Only put p changes, at its runtime and in its handle. */
  ghost predicate OnlyPut(s: System, t: System, p: PutId) {
    && t.home == s.home && t.runtimes.Keys == s.runtimes.Keys
    && p in t.puts && t.puts == s.puts[p := t.puts[p]]
    && (forall r | r in s.runtimes :: forall q ::
          && (q in t.runtimes[r].puts <==> q in s.runtimes[r].puts)
          && (q in s.runtimes[r].puts && q != p ==> t.runtimes[r].puts[q] == s.runtimes[r].puts[q]))
  }

  lemma HomesStay(s: System, t: System, p: PutId)
    requires HomesOk(s) && OnlyPut(s, t, p) && Housed(s, p) && Matches(t.puts[p], Dispatched(t, p))
    ensures HomesOk(t)
  {
    hide Matches;
    forall q | q in t.home
      ensures HomeOk(t, q)
    {
      assert HomeOk(s, q);
    }
    forall r | r in t.runtimes
      ensures AtHome(t, r)
    {
      assert AtHome(s, r);
    }
  }

  // ---- handles ----

  lemma StopStays(x: X.State, step: X.Step)
    ensures x.exec.stopped ==> X.Apply(x, step).exec.stopped
  {
  }

  lemma ToldStops(x: X.State, call: X.Call)
    requires X.Inv(x) && !call.Withdraw?
    ensures X.Apply(x, X.Finish(call)).exec.stopped
    ensures x.exec.stopped ==> X.Apply(x, X.Finish(call)) == x
    ensures !x.exec.stopped ==> X.Apply(x, X.Finish(call)).holder == X.Finishing(call, false)
                                && X.Apply(x, X.Finish(call)).winners == []
  {
  }

  lemma FinishKeepsIds(x: X.State, call: X.Call)
    ensures var y := X.Apply(x, X.Finish(call));
            y.cancels == x.cancels && y.exec.ticket == x.exec.ticket && y.submitter == x.submitter && y.peer == x.peer
  {
  }

  /** Only a reply makes the handle reply. */
  lemma OwnStepReplies(x: X.State, own: X.Step)
    requires X.Inv(x) && (own.Finish? ==> !own.call.SendReply?)
    ensures Replies(X.Apply(x, own)) <==> Replies(x)
  {
  }

  /** Moving a handle moves what its dispatch sees. */
  lemma MoveMatches(s: System, p: PutId, x: X.State)
    requires HomesOk(s) && RuntimesOk(s) && p in s.puts && Housed(s, p)
    requires (s.puts[p].exec.stopped ==> x.exec.stopped) && (Replies(x) <==> Replies(s.puts[p]))
    ensures var t := MoveHandle(s, p, x); HomesOk(t) && RuntimesOk(t) && Housed(t, p)
  {
    hide DT.Inv, Halt, HomesOk, Replies;
    var t := MoveHandle(s, p, x);
    var r := s.home[p];
    MatchOf(s, p);
    UnstoppedIsUnanswered(s.runtimes[r], p);
    if x.exec.stopped {
      DT.StepKeepsInv(s.runtimes[r], D.OwnStep(p, D.StopRequest));
      HaltKeeps(s.runtimes[r], p);
      forall q
        ensures q in Halt(s.runtimes[r], p).puts <==> q in s.runtimes[r].puts
        ensures q in s.runtimes[r].puts && q != p ==> Halt(s.runtimes[r], p).puts[q] == s.runtimes[r].puts[q]
      {
        HaltIs(s.runtimes[r], p, q);
      }
      HaltIs(s.runtimes[r], p, p);
    }
    HomesStay(s, t, p);
  }

  lemma HaltKeeps(d: D.State, p: PutId)
    requires DT.Inv(d)
    ensures DT.Inv(Halt(d, p))
  {
    hide DT.Inv;
    DT.StepKeepsInv(d, D.OwnStep(p, D.StopRequest));
  }

  lemma MatchOf(s: System, p: PutId)
    requires HomesOk(s) && p in s.puts
    ensures Housed(s, p) && HomeOk(s, p) && Matches(s.puts[p], Dispatched(s, p))
  {
    assert p in s.home;
  }

  /** Handles only move forward. */
  ghost predicate PutsMove(s: System, t: System) {
    && (forall p | p in s.puts :: p in t.puts && (s.puts[p].exec.stopped ==> t.puts[p].exec.stopped))
    && (forall id | id in s.of :: id in t.of && t.of[id] == s.of[id])
  }

  lemma CoupledStays(s: System, t: System)
    requires CoupledOk(s) && PutsMove(s, t) && Q.Extends(s.queue, t.queue)
    requires forall i | |s.queue.log| <= i < |t.queue.log| ::
               var e := t.queue.log[i];
               && (e.Submitted? ==> e.id in t.of && t.of[e.id] in t.puts)
               && (e.Returned? || e.Notified? ==> Stopped(t, e.id))
    ensures CoupledOk(t)
  {
    forall i | 0 <= i < |t.queue.log|
      ensures var e := t.queue.log[i];
              && (e.Submitted? ==> e.id in t.of && t.of[e.id] in t.puts)
              && (e.Returned? ==> Stopped(t, e.id))
              && (e.Notified? ==> Stopped(t, e.id))
    {
      if i < |s.queue.log| {
        assert t.queue.log[i] == s.queue.log[i];
      }
    }
  }

  /** Ids and condemned tasks known to the other handles stay so when the queue moves on. */
  lemma CancelledStays(s: System, t: System, p: PutId)
    requires CancelledOk(s) && Later(s.queue.q, t.queue.q)
    requires p in t.puts && t.puts == s.puts[p := t.puts[p]]
    requires KnownIds(t.queue.q, t.puts[p])
    requires forall id: nat | 1 <= id <= t.queue.q.nextId :: id in t.of && (id <= s.queue.q.nextId ==> t.of[id] == s.of[id])
                                                             && (id > s.queue.q.nextId ==> t.of[id] == p)
    requires forall id | id in t.of :: id <= t.queue.q.nextId
    ensures CancelledOk(t)
  {
    hide KnownIds;
    forall x | x in t.puts
      ensures KnownIds(t.queue.q, t.puts[x])
    {
      if x != p {
        assert KnownIds(s.queue.q, s.puts[x]);
        KnownStays(s.queue.q, t.queue.q, s.puts[x]);
      }
    }
  }

  // ---- steps ----

  ghost function PutsAt(s: System, r: RuntimeId): map<PutId, D.Put> {
    if r in s.runtimes then s.runtimes[r].puts else map[]
  }

  lemma HomeStays(s: System, t: System, r: RuntimeId, q: PutId)
    requires HomeOk(s, q) && t.puts == s.puts && r in t.runtimes && t.runtimes == s.runtimes[r := t.runtimes[r]]
    requires q in t.home && t.home[q] == s.home[q]
    requires q in PutsAt(s, r) ==> q in PutsAt(t, r) && PutsAt(t, r)[q] == PutsAt(s, r)[q]
    ensures HomeOk(t, q)
  {
    hide Matches;
  }

  lemma AtHomeStays(s: System, t: System, r: RuntimeId)
    requires (forall x | x in s.runtimes :: AtHome(s, x)) && r in t.runtimes && t.runtimes == s.runtimes[r := t.runtimes[r]]
    requires forall q | q in s.home :: q in t.home && t.home[q] == s.home[q]
    requires forall q | q in t.runtimes[r].puts :: q in t.home && t.home[q] == r
    ensures forall x | x in t.runtimes :: AtHome(t, x)
  {
    forall x | x in t.runtimes
      ensures AtHome(t, x)
    {
      assert x != r ==> AtHome(s, x);
    }
  }

  /** A runtime changes, and of its puts at most one without a handle. */
  lemma HomesChange(s: System, t: System, r: RuntimeId, p: PutId, changed: bool)
    requires HomesOk(s) && t.puts == s.puts && r in t.runtimes && t.runtimes == s.runtimes[r := t.runtimes[r]]
    requires forall q | q != p || !changed ::
               (q in PutsAt(t, r) <==> q in PutsAt(s, r)) && (q in PutsAt(s, r) ==> PutsAt(t, r)[q] == PutsAt(s, r)[q])
    requires !changed ==> t.home == s.home
    requires changed ==> p in PutsAt(t, r) && p !in s.puts && (p in s.home ==> s.home[p] == r) && t.home == s.home[p := r]
                         && (PutsAt(t, r)[p].place.Returned? || !PutsAt(t, r)[p].stopped)
    ensures HomesOk(t)
  {
    assert changed ==> HomeOk(t, p);
    assert r in s.runtimes ==> AtHome(s, r);
    hide HomeOk;
    forall q | q in t.runtimes[r].puts
      ensures q in t.home && t.home[q] == r
    {
      if q != p || !changed {
        assert q in PutsAt(s, r);
      }
    }
    hide AtHome;
    AtHomeStays(s, t, r);
    forall q | q in t.home
      ensures HomeOk(t, q)
    {
      if q != p || !changed {
        HomeStays(s, t, r, q);
      }
    }
  }

  lemma NewRuntimeKeeps(s: System, step: Step)
    requires Inv(s) && step.NewRuntime? && Possible(s, step)
    ensures Inv(Effect(s, step))
  {
    hide QueueOk, X.Inv, HomesOk, CoupledOk, CancelledOk;
    var t := Effect(s, step);
    DT.StartsOk(step.confirms, step.transform);
    assert t.runtimes[step.r].puts == map[];
    hide DT.Inv;
    HomesChange(s, t, step.r, 0, false);
    SameQueueSide(s, t);
  }

  lemma AdmissionIs(d: D.State, step: D.Step)
    requires D.Possible(d, step) && Admission(step)
    ensures var put := D.Effect(d, step).puts[step.p];
            (step.p in d.puts ==> d.puts[step.p].place.Returned? || !d.puts[step.p].stopped) ==> put.place.Returned? || !put.stopped
    ensures step.p in d.puts ==> d.puts[step.p].place.Arriving? || d.puts[step.p].place.Admitting?
    ensures step.own.Arrive? <==> step.p !in d.puts
  {
  }

  lemma RuntimeStepKeeps(s: System, r: RuntimeId, d: D.Step)
    requires Inv(s) && Possible(s, RuntimeStep(r, d))
    ensures Inv(Effect(s, RuntimeStep(r, d)))
  {
    hide QueueOk, X.Inv, DT.Inv, CoupledOk, CancelledOk, HomesOk, D.Effect, D.Possible;
    var t := Effect(s, RuntimeStep(r, d));
    DT.StepKeepsInv(s.runtimes[r], d);
    if DT.Shared(d) {
      SharedPuts(s.runtimes[r], d);
      HomesChange(s, t, r, 0, false);
    } else {
      AdmissionIs(s.runtimes[r], d);
      DispatchMoves(s.runtimes[r], d, d.p);
      NoHandleYet(s, r, d.p);
      forall q | q != d.p
        ensures q in t.runtimes[r].puts <==> q in s.runtimes[r].puts
        ensures q in s.runtimes[r].puts ==> t.runtimes[r].puts[q] == s.runtimes[r].puts[q]
      {
        DispatchMoves(s.runtimes[r], d, q);
      }
      AdmissionStays(s, r, d);
      HomesChange(s, t, r, d.p, true);
    }
    SameQueueSide(s, t);
  }

  lemma NoHandleYet(s: System, r: RuntimeId, p: PutId)
    requires HomesOk(s) && r in s.runtimes
    ensures p in s.runtimes[r].puts ==> p in s.home && s.home[p] == r && HomeOk(s, p)
    ensures p in s.puts ==> Housed(s, p) && Matches(s.puts[p], Dispatched(s, p))
  {
    assert p in s.home ==> HomeOk(s, p);
    assert AtHome(s, r);
  }

  lemma AdmissionStays(s: System, r: RuntimeId, d: D.Step)
    requires HomesOk(s) && Possible(s, RuntimeStep(r, d)) && Admission(d)
    ensures d.p !in s.puts && d.p in D.Effect(s.runtimes[r], d).puts
    ensures var put := D.Effect(s.runtimes[r], d).puts[d.p]; put.place.Returned? || !put.stopped
    ensures d.p in s.home ==> s.home[d.p] == r
    ensures !d.own.Arrive? ==> d.p in s.home
  {
    AdmissionIs(s.runtimes[r], d);
    NoHandleYet(s, r, d.p);
    if d.own.Arrive? {
      assert d.p !in s.home;
    }
  }

  lemma SharedPuts(d: D.State, step: D.Step)
    requires D.Possible(d, step) && DT.Shared(step)
    ensures D.Effect(d, step).puts == d.puts && !step.OwnStep?
  {
    hide D.Settle, D.FailAll, D.Invalidate;
  }

  lemma SameQueueSide(s: System, t: System)
    requires CoupledOk(s) && CancelledOk(s) && t.queue == s.queue && t.puts == s.puts && t.of == s.of
    ensures CoupledOk(t) && CancelledOk(t)
  {
  }

  lemma NewPutHomes(s: System, p: PutId)
    requires HomesOk(s) && RuntimesOk(s) && Possible(s, NewPut(p))
    ensures HomesOk(Effect(s, NewPut(p)))
  {
    hide DT.Inv;
    var t := Effect(s, NewPut(p));
    assert HomeOk(s, p);
    UnstoppedIsUnanswered(s.runtimes[s.home[p]], p);
    assert Matches(t.puts[p], Dispatched(t, p));
    hide Matches, HomesOk;
    HomesStay(s, t, p);
  }

  lemma NewPutIds(s: System, p: PutId)
    requires CoupledOk(s) && CancelledOk(s) && Possible(s, NewPut(p))
    ensures CoupledOk(Effect(s, NewPut(p))) && CancelledOk(Effect(s, NewPut(p)))
  {
    var t := Effect(s, NewPut(p));
    CoupledStays(s, t);
    CancelledStays(s, t, p);
  }

  lemma NewPutKeeps(s: System, p: PutId)
    requires Inv(s) && Possible(s, NewPut(p))
    ensures Inv(Effect(s, NewPut(p)))
  {
    hide QueueOk, DT.Inv, HomesOk, CoupledOk, CancelledOk;
    X.RunKeepsInv([]);
    hide X.Inv;
    NewPutHomes(s, p);
    NewPutIds(s, p);
  }

  lemma SubmitRefused(s: System, p: PutId, queue: Q.State, message: string)
    requires HandlesOk(s) && HomesOk(s) && RuntimesOk(s) && p in s.puts && Housed(s, p) && s.puts[p].submitter.Submitting?
    ensures var t := MoveHandle(s.(queue := queue), p, X.Apply(Tell(s.puts[p], message), X.SubmitReturns(0)));
            && HandlesOk(t) && HomesOk(t) && RuntimesOk(t)
            && t.puts[p].exec.stopped && t.puts[p].exec.ticket == s.puts[p].exec.ticket && t.puts[p].cancels == s.puts[p].cancels
            && t.puts[p].submitter == X.Submitted(0) && t.puts[p].peer == s.puts[p].peer
  {
    hide DT.Inv, HomesOk;
    var x := s.puts[p];
    X.StepKeepsInv(x, X.Finish(X.SendError(message)));
    X.StepKeepsInv(Tell(x, message), X.SubmitReturns(0));
    ToldStops(x, X.SendError(message));
    FinishKeepsIds(x, X.SendError(message));
    MatchOf(s, p);
    var y := X.Apply(Tell(x, message), X.SubmitReturns(0));
    OwnStepReplies(x, X.Finish(X.SendError(message)));
    OwnStepReplies(Tell(x, message), X.SubmitReturns(0));
    hide X.Inv;
    SameRuntimes(s, s.(queue := queue));
    MoveMatches(s.(queue := queue), p, y);
  }

  lemma SameRuntimes(s: System, t: System)
    requires HomesOk(s) && RuntimesOk(s) && t.runtimes == s.runtimes && t.home == s.home && t.puts == s.puts
    ensures HomesOk(t) && RuntimesOk(t)
    ensures forall p :: (Housed(t, p) <==> Housed(s, p)) && (Housed(s, p) ==> Dispatched(t, p) == Dispatched(s, p))
  {
    hide DT.Inv, Matches;
    forall p | p in t.home
      ensures HomeOk(t, p)
    {
      assert HomeOk(s, p);
    }
    forall r | r in t.runtimes
      ensures AtHome(t, r)
    {
      assert AtHome(s, r);
    }
  }

  lemma SubmitPutKeeps(s: System, p: PutId, work: QueueCore.Work, now: int, message: string)
    requires Inv(s) && Possible(s, SubmitPut(p, work, now, message))
    ensures Inv(Effect(s, SubmitPut(p, work, now, message)))
  {
    hide Q.StateInv, QueueCore.Submit, X.Inv, DT.Inv, HomesOk, CoupledOk, CancelledOk, Halt, Tell, X.Possible, X.Effect;
    var t := Effect(s, SubmitPut(p, work, now, message));
    var x := s.puts[p];
    QueueMoves(s.queue, Q.Submit(work, now));
    LogGains(s.queue, Q.Submit(work, now));
    Q.SubmitEffect(s.queue.q, work, now);
    assert t.queue.q == QueueCore.Submit(s.queue.q, work, now).0;
    var r := QueueCore.Submit(s.queue.q, work, now).1;
    if r.Admitted? {
      SubmitAdmitted(s, t, p, r.id);
    } else {
      SubmitRefused(s, p, t.queue, message);
    }
    SubmitLogs(s, t, p, work, now);
    SubmitIds(s, t, p, r);
  }

  lemma SubmitAdmitted(s: System, t: System, p: PutId, id: QueueCore.TaskId)
    requires HandlesOk(s) && HomesOk(s) && RuntimesOk(s) && p in s.puts && s.puts[p].submitter.Submitting?
    requires t.runtimes == s.runtimes && t.home == s.home && t.puts == s.puts[p := X.Apply(s.puts[p], X.SubmitReturns(id))]
    ensures HandlesOk(t) && HomesOk(t) && RuntimesOk(t)
    ensures t.puts[p] == s.puts[p].(submitter := X.Submitted(id))
  {
    hide DT.Inv, HomesOk, X.Inv, X.Apply, Matches;
    MatchOf(s, p);
    SubmitMatches(s.puts[p], id, Dispatched(s, p));
    HomesStay(s, t, p);
  }

  lemma SubmitMatches(x: X.State, id: QueueCore.TaskId, put: D.Put)
    requires X.Inv(x) && x.submitter.Submitting? && Matches(x, put)
    ensures var y := X.Apply(x, X.SubmitReturns(id));
            X.Inv(y) && y == x.(submitter := X.Submitted(id)) && Matches(y, put)
  {
    X.StepKeepsInv(x, X.SubmitReturns(id));
    hide X.Inv;
  }

  lemma SubmitLogs(s: System, t: System, p: PutId, work: QueueCore.Work, now: int)
    requires CoupledOk(s) && p in s.puts && p in t.puts && t.queue == Q.Apply(s.queue, Q.Submit(work, now))
    requires Gains(s.queue, Q.Submit(work, now)) && Q.Extends(s.queue, t.queue)
    requires t.puts == s.puts[p := t.puts[p]] && (s.puts[p].exec.stopped ==> t.puts[p].exec.stopped)
    requires var r := QueueCore.Submit(s.queue.q, work, now).1; t.of == if r.Admitted? then s.of[r.id := p] else s.of
    requires CancelledOk(s) && (QueueCore.Submit(s.queue.q, work, now).1.Admitted? ==>
               QueueCore.Submit(s.queue.q, work, now).1.id == s.queue.q.nextId + 1)
    ensures CoupledOk(t)
  {
    hide QueueCore.Submit, Q.Possible, Q.Effect;
    CoupledStays(s, t);
  }

  lemma SubmitIds(s: System, t: System, p: PutId, r: QueueCore.Submission)
    requires CancelledOk(s) && Later(s.queue.q, t.queue.q) && p in s.puts && p in t.puts && t.puts == s.puts[p := t.puts[p]]
    requires t.puts[p].exec.ticket == s.puts[p].exec.ticket && t.puts[p].cancels == s.puts[p].cancels
    requires t.puts[p].peer == s.puts[p].peer
    requires t.puts[p].submitter == X.Submitted(if r.Admitted? then r.id else 0)
    requires t.queue.q.nextId == if r.Admitted? then s.queue.q.nextId + 1 else s.queue.q.nextId
    requires r.Admitted? ==> r.id == t.queue.q.nextId
    requires t.of == if r.Admitted? then s.of[r.id := p] else s.of
    ensures CancelledOk(t)
  {
    KnownStays(s.queue.q, t.queue.q, s.puts[p]);
    CancelledStays(s, t, p);
  }

  // ---- the queue's own steps ----

  /** The puts that a queue step looks up are always there. */
  lemma ServedAlways(s: System, id: QueueCore.TaskId)
    requires HomesOk(s) && CancelledOk(s) && 1 <= id <= s.queue.q.nextId
    ensures Serves(s, id)
  {
    assert s.of[id] in s.puts;
    MatchOf(s, s.of[id]);
  }

  /** So the look-ups in the step's condition exclude nothing: only the dispatch decides when a run is over. */
  lemma QueueStepsAreFree(s: System, step: Q.Step)
    requires Inv(s) && Q.Possible(s.queue, step) && !step.Submit? && !step.Cancel? && !step.Return?
    ensures QueueMay(s, step)
  {
    hide X.Inv, DT.Inv, CoupledOk;
    if step.Notify? {
      ServedAlways(s, step.id);
    }
  }

  /** What is still running has not been answered by the queue's bookkeeping but by its dispatch. */
  lemma ReturnedIsServed(s: System, step: Q.Step)
    requires Inv(s) && QueueMay(s, step) && step.Return? && Told(s.queue, step).None?
    ensures Stopped(s, s.queue.workers[step.w].id)
  {
    hide QueueOk, X.Inv, DT.Inv, CoupledOk, CancelledOk, HomesOk, Matches;
    var p := s.of[s.queue.workers[step.w].id];
    MatchOf(s, p);
    ReturnedIsStopped(s.runtimes[s.home[p]], p);
    MatchStopped(s, p);
  }

  lemma MatchStopped(s: System, p: PutId)
    requires p in s.puts && Housed(s, p) && Matches(s.puts[p], Dispatched(s, p)) && Dispatched(s, p).stopped
    ensures s.puts[p].exec.stopped
  {
  }

  lemma TellKeeps(s: System, p: PutId, queue: Q.State, message: string)
    requires HandlesOk(s) && HomesOk(s) && RuntimesOk(s) && p in s.puts && Housed(s, p)
    ensures var t := MoveHandle(s.(queue := queue), p, Tell(s.puts[p], message));
            && HandlesOk(t) && HomesOk(t) && RuntimesOk(t)
            && t.puts[p].exec.stopped && t.puts[p].exec.ticket == s.puts[p].exec.ticket && t.puts[p].cancels == s.puts[p].cancels
            && t.puts[p].submitter == s.puts[p].submitter && t.puts[p].peer == s.puts[p].peer
  {
    hide DT.Inv, HomesOk;
    var x := s.puts[p];
    X.StepKeepsInv(x, X.Finish(X.SendError(message)));
    ToldStops(x, X.SendError(message));
    FinishKeepsIds(x, X.SendError(message));
    MatchOf(s, p);
    OwnStepReplies(x, X.Finish(X.SendError(message)));
    hide X.Inv;
    SameRuntimes(s, s.(queue := queue));
    MoveMatches(s.(queue := queue), p, Tell(x, message));
  }

  /** The new events of the log concern the task that was told, or the one whose dispatch has answered. */
  lemma QueueStepLogs(s: System, t: System, step: Q.Step)
    requires CoupledOk(s) && t.queue == Q.Apply(s.queue, step) && Gains(s.queue, step) && Q.Extends(s.queue, t.queue)
    requires !step.Submit? && t.of == s.of && PutsMove(s, t)
    requires Told(s.queue, step).Some? ==> Stopped(t, Told(s.queue, step).value)
    requires step.Return? && Told(s.queue, step).None? && step.w < |s.queue.workers| && s.queue.workers[step.w].Busy? ==>
               Stopped(t, s.queue.workers[step.w].id)
    ensures CoupledOk(t)
  {
    hide Q.Apply, QueueCore.Submit, Stopped, PutsMove;
    CoupledStays(s, t);
  }

  /** A queue step that tells a put of its failure. */
  lemma TellingKeeps(s: System, id: QueueCore.TaskId, queue: Q.State, message: string)
    requires HandlesOk(s) && HomesOk(s) && RuntimesOk(s) && CancelledOk(s) && Serves(s, id)
    requires Later(s.queue.q, queue.q) && queue.q.nextId == s.queue.q.nextId
    ensures var t := MoveHandle(s.(queue := queue), s.of[id], Tell(s.puts[s.of[id]], message));
            HandlesOk(t) && HomesOk(t) && RuntimesOk(t) && CancelledOk(t) && PutsMove(s, t) && Stopped(t, id) && t.of == s.of
  {
    hide HandlesOk, RuntimesOk, CancelledOk, HomesOk, Halt, Tell, Later;
    var p := s.of[id];
    var t := MoveHandle(s.(queue := queue), p, Tell(s.puts[p], message));
    TellKeeps(s, p, queue, message);
    QueueStepIds(s, t, p);
  }

  lemma QueueStepKeeps(s: System, step: Q.Step, message: string)
    requires Possible(s, QueueStep(step, message)) && Inv(s)
    ensures Inv(Effect(s, QueueStep(step, message)))
  {
    hide Q.StateInv, Q.Possible, Q.Apply, Q.Effect, HandlesOk, RuntimesOk, CoupledOk, CancelledOk, HomesOk, Halt, Tell, Gains;
    var t := Effect(s, QueueStep(step, message));
    QueueMoves(s.queue, step);
    LogGains(s.queue, step);
    if Told(s.queue, step).Some? {
      TellingKeeps(s, Told(s.queue, step).value, t.queue, message);
    } else {
      SameRuntimes(s, t);
      SameIds(s, t);
      SameHandles(s, t);
      if step.Return? {
        ReturnedIsServed(s, step);
      }
    }
    QueueStepLogs(s, t, step);
  }

  lemma SameHandles(s: System, t: System)
    requires HandlesOk(s) && t.puts == s.puts
    ensures HandlesOk(t)
  {
    hide X.Inv;
  }

  lemma QueueStepIds(s: System, t: System, p: PutId)
    requires CancelledOk(s) && Later(s.queue.q, t.queue.q) && p in s.puts && p in t.puts && t.puts == s.puts[p := t.puts[p]]
    requires t.puts[p].exec.ticket == s.puts[p].exec.ticket && t.puts[p].cancels == s.puts[p].cancels
    requires t.puts[p].submitter == s.puts[p].submitter && t.puts[p].peer == s.puts[p].peer
    requires t.of == s.of && t.queue.q.nextId == s.queue.q.nextId
    ensures CancelledOk(t)
  {
    KnownStays(s.queue.q, t.queue.q, s.puts[p]);
    CancelledStays(s, t, p);
  }

  lemma SameIds(s: System, t: System)
    requires CancelledOk(s) && Later(s.queue.q, t.queue.q) && t.puts == s.puts && t.of == s.of
    requires t.queue.q.nextId == s.queue.q.nextId
    ensures CancelledOk(t)
  {
    forall x | x in t.puts
      ensures KnownIds(t.queue.q, t.puts[x])
    {
      KnownStays(s.queue.q, t.queue.q, s.puts[x]);
    }
  }

  // ---- the dispatch ----

  lemma RunsAhead(d: D.State, step: D.Step, p: PutId)
    requires D.Possible(d, step) && Runs(step, p) && p in d.puts
    ensures Concerns(step, p) && p in D.Effect(d, step).puts
    ensures !D.Effect(d, step).puts[p].place.Arriving? && !D.Effect(d, step).puts[p].place.Admitting?
  {
    hide D.Effect, D.Possible;
    StepOnward(d, step, p);
  }

  lemma UnstoppedIsUnanswered(d: D.State, p: PutId)
    requires DT.Inv(d) && p in d.puts
    ensures !d.puts[p].stopped ==> d.puts[p].answer.Unanswered?
  {
    DT.PutFacts(d, p);
  }

  /** An answer of the dispatch finishes the handle. */
  lemma DispatchMatches(x: X.State, before: D.Put, put: D.Put, message: string)
    requires X.Inv(x) && Matches(x, before) && !put.place.Arriving? && !put.place.Admitting?
    requires before.stopped ==> put.stopped && put.answer == before.answer
    requires !put.stopped ==> put.answer.Unanswered?
    ensures var y := if put.stopped && !before.stopped then X.Apply(x, X.Finish(Answer(put, message))) else x;
            && X.Inv(y) && Matches(y, put) && (x.exec.stopped ==> y.exec.stopped)
            && y.cancels == x.cancels && y.exec.ticket == x.exec.ticket && y.submitter == x.submitter && y.peer == x.peer
  {
    if put.stopped && !before.stopped {
      var call := Answer(put, message);
      X.StepKeepsInv(x, X.Finish(call));
      ToldStops(x, call);
      FinishKeepsIds(x, call);
      hide X.Inv, X.Apply;
    }
  }

  lemma DispatchHomes(s: System, t: System, p: PutId, d: D.Step)
    requires HomesOk(s) && p in s.puts && p in t.puts && Housed(s, p) && D.Possible(s.runtimes[s.home[p]], d)
    requires Runs(d, p) && t.home == s.home && t.puts == s.puts[p := t.puts[p]]
    requires t.runtimes == s.runtimes[s.home[p] := D.Effect(s.runtimes[s.home[p]], d)]
    requires p in t.runtimes[s.home[p]].puts && Matches(t.puts[p], t.runtimes[s.home[p]].puts[p])
    ensures HomesOk(t)
  {
    hide D.Effect, D.Possible, Matches, HomesOk;
    forall q
      ensures q in t.runtimes[s.home[p]].puts <==> q in s.runtimes[s.home[p]].puts
      ensures q in s.runtimes[s.home[p]].puts && q != p ==> t.runtimes[s.home[p]].puts[q] == s.runtimes[s.home[p]].puts[q]
    {
      DispatchMoves(s.runtimes[s.home[p]], d, q);
    }
    HomesStay(s, t, p);
  }

  lemma DispatchKeeps(s: System, p: PutId, d: D.Step, message: string)
    requires Inv(s) && Possible(s, DispatchStep(p, d, message))
    ensures Inv(Effect(s, DispatchStep(p, d, message)))
  {
    hide QueueOk, X.Inv, DT.Inv, CoupledOk, CancelledOk, HomesOk, D.Effect, D.Possible, Matches, X.Apply, Runs, InRun;
    var t := Effect(s, DispatchStep(p, d, message));
    var r := s.home[p];
    MatchOf(s, p);
    DT.StepKeepsInv(s.runtimes[r], d);
    RunsAhead(s.runtimes[r], d, p);
    DispatchMoves(s.runtimes[r], d, p);
    UnstoppedIsUnanswered(t.runtimes[r], p);
    DispatchMatches(s.puts[p], Dispatched(s, p), t.runtimes[r].puts[p], message);
    assert t.puts[p] == if t.runtimes[r].puts[p].stopped && !Dispatched(s, p).stopped
                        then X.Apply(s.puts[p], X.Finish(Answer(t.runtimes[r].puts[p], message))) else s.puts[p];
    DispatchHomes(s, t, p, d);
    LaterSame(s.queue.q);
    QueueStepIds(s, t, p);
    CoupledStays(s, t);
  }

  lemma LaterSame(q: QueueCore.Queue)
    ensures Later(q, q)
  {
  }

  // ---- the handle's own steps ----

  /** A handle step passes the queue only ids the handle knows. */
  lemma OwnStepKnown(q: QueueCore.Queue, x: X.State, own: X.Step)
    requires KnownIds(q, x) && X.Possible(x, own) && !own.SubmitReturns?
    requires CancelledBy(x, own).Some? ==> Dead(q, CancelledBy(x, own).value)
    ensures KnownIds(q, X.Apply(x, own))
  {
  }

  lemma OwnStepHandle(s: System, p: PutId, own: X.Step)
    requires HandlesOk(s) && HomesOk(s) && RuntimesOk(s) && p in s.puts && Housed(s, p) && !own.Finish?
    ensures var t := MoveHandle(s, p, X.Apply(s.puts[p], own));
            && HandlesOk(t) && HomesOk(t) && RuntimesOk(t) && (s.puts[p].exec.stopped ==> t.puts[p].exec.stopped)
  {
    hide DT.Inv, HomesOk, Halt;
    var x := s.puts[p];
    X.StepKeepsInv(x, own);
    StopStays(x, own);
    MatchOf(s, p);
    OwnStepReplies(x, own);
    hide X.Inv, X.Apply;
    MoveMatches(s, p, X.Apply(x, own));
  }

  lemma PutStepKeeps(s: System, p: PutId, own: X.Step)
    requires Inv(s) && Possible(s, PutStep(p, own))
    ensures Inv(Effect(s, PutStep(p, own)))
  {
    hide Q.StateInv, Q.Possible, Q.Effect, X.Inv, X.Effect, CancelledBy, KnownIds, DT.Inv, CoupledOk, CancelledOk, HomesOk, Halt,
         X.Possible, Matches;
    var t := Effect(s, PutStep(p, own));
    var x := s.puts[p];
    OwnStepHandle(s, p, own);
    KnownOf(s, p);
    if CancelledBy(x, own).Some? {
      var id := CancelledBy(x, own).value;
      QueueMoves(s.queue, Q.Cancel(id));
      LogGains(s.queue, Q.Cancel(id));
      CancelKills(s.queue, id);
      KnownStays(s.queue.q, t.queue.q, x);
      SameRuntimes(MoveHandle(s, p, X.Apply(x, own)), t);
    } else {
      LaterSame(s.queue.q);
    }
    OwnStepKnown(t.queue.q, x, own);
    CoupledStays(s, t);
    PutStepIds(s, t, p);
  }

  lemma KnownOf(s: System, p: PutId)
    requires CancelledOk(s) && p in s.puts
    ensures KnownIds(s.queue.q, s.puts[p])
  {
  }

  lemma PutStepIds(s: System, t: System, p: PutId)
    requires CancelledOk(s) && Later(s.queue.q, t.queue.q) && p in t.puts && t.puts == s.puts[p := t.puts[p]]
    requires KnownIds(t.queue.q, t.puts[p]) && t.of == s.of && t.queue.q.nextId == s.queue.q.nextId
    ensures CancelledOk(t)
  {
    hide KnownIds;
    CancelledStays(s, t, p);
  }

  /** After cancel() the task cannot run any more. */
  lemma CancelKills(q: Q.State, id: QueueCore.TaskId)
    requires Q.StateInv(q)
    ensures Dead(Q.Apply(q, Q.Cancel(id)).q, id)
  {
    hide Q.WorkersOk, Q.StartsOk, Q.NoticesOk, Q.OutcomesOk, QueueCore.CountsOk, QueueCore.TokensOk, QueueCore.LanesOk,
         QueueCore.Cancel;
    if QueueCore.Cancellable(q.q, id) {
      assert QueueCore.TaskOk(q.q, id);
      Q.CondemnEffect(q.q, id);
    }
  }

  // ---- runs ----

  lemma {:induction false} RunKeepsInv(limits: QueueCore.Limits, steps: seq<Step>)
    ensures Inv(After(limits, steps))
    decreases |steps|
  {
    if steps == [] {
      QueueTheorems.RunKeeps(limits, []);
      hide Q.StateInv;
    } else {
      hide Inv, Possible, Effect;
      RunKeepsInv(limits, steps[..|steps| - 1]);
      StepKeepsInv(After(limits, steps[..|steps| - 1]), steps[|steps| - 1]);
    }
  }

  /** Every step of every queue thread, client, dispatch and reload keeps the invariant. */
  lemma StepKeepsInv(s: System, step: Step)
    requires Inv(s)
    ensures Inv(Apply(s, step))
  {
    if Possible(s, step) {
      hide Inv, Effect;
      match step
      case NewRuntime(_, _, _) => NewRuntimeKeeps(s, step);
      case RuntimeStep(r, d) => RuntimeStepKeeps(s, r, d);
      case NewPut(p) => NewPutKeeps(s, p);
      case SubmitPut(p, work, now, message) => SubmitPutKeeps(s, p, work, now, message);
      case QueueStep(q, message) => QueueStepKeeps(s, q, message);
      case DispatchStep(p, d, message) => DispatchKeeps(s, p, d, message);
      case PutStep(p, own) => PutStepKeeps(s, p, own);
    }
  }

  // ---- promises ----

  /** One caller finished the put's handle, and once it is through the client has had exactly its answer. */
  ghost predicate AnsweredOnce(x: X.State) {
    && x.exec.stopped
    && (x.holder.Nobody? ==> |x.winners| == 1)
    && |x.answers| <= 1
    && (x.winners != [] && x.winners[0].answered ==> |x.answers| == 1 && x.answers[0] == X.AnswerOf(x.winners[0].call))
  }

  /**
   Under every interleaving of dispatch, cancellation, late ids, deadlines, exceptions, reloads and shutdown: once the
   queue is drained and its callbacks are made, every put it accepted has exactly one terminal outcome.
   */
  lemma EveryPutAnsweredOnce(limits: QueueCore.Limits, steps: seq<Step>, i: nat)
    requires var q := After(limits, steps).queue;
             q.drained && q.owed == map[] && i < |q.log| && q.log[i].Submitted?
    ensures var s := After(limits, steps);
            && s.queue.log[i].id in s.of && s.of[s.queue.log[i].id] in s.puts
            && AnsweredOnce(s.puts[s.of[s.queue.log[i].id]])
  {
    RunKeepsInv(limits, steps);
    var s := After(limits, steps);
    hide After, DT.Inv, HomesOk, CancelledOk;
    var id := s.queue.log[i].id;
    DrainedHasOutcome(s.queue, i);
    if Q.HasReturned(s.queue.log, id, 0) {
      var m :| 0 <= m < |s.queue.log| && s.queue.log[m] == Q.Returned(id);
      assert Stopped(s, id);
    } else {
      var m :| 0 <= m < |s.queue.log| && Q.Judged(s.queue.log[m]) && s.queue.log[m].id == id;
      assert Stopped(s, id);
    }
    assert X.Inv(s.puts[s.of[id]]);
  }

  lemma DrainedHasOutcome(q: Q.State, i: nat)
    requires Q.StateInv(q) && q.drained && q.owed == map[] && i < |q.log| && q.log[i].Submitted?
    ensures Q.HasReturned(q.log, q.log[i].id, 0)
            || exists m | 0 <= m < |q.log| :: Q.Judged(q.log[m]) && q.log[m].id == q.log[i].id
  {
    var id := q.log[i].id;
    if Q.HasStarted(q.log, id) {
      var k :| 0 <= k < |q.log| && q.log[k].Started? && q.log[k].id == id;
      assert Q.StartOk(q, k);
      var m :| k <= m < |q.log| && q.log[m] == Q.Returned(id);
      assert Q.HasReturned(q.log, id, 0);
    } else {
      assert Q.HasNotice(q, id);
    }
  }

  /** A run that returned has a finished handle, because its dispatch answered or saw it finished. */
  lemma ReturnedRunIsAnswered(limits: QueueCore.Limits, steps: seq<Step>, i: nat)
    requires var q := After(limits, steps).queue; i < |q.log| && q.log[i].Returned?
    ensures Stopped(After(limits, steps), After(limits, steps).queue.log[i].id)
  {
    RunKeepsInv(limits, steps);
    hide After, DT.Inv, HomesOk, CancelledOk, X.Inv, QueueOk;
  }

  /** The value the client put was written and acknowledged, once, and if the endpoint confirms was seen back in the same reader epoch. */
  ghost predicate Landed(d: D.State, p: PutId) {
    && p in d.puts && DT.WasAcknowledged(d.writes, p)
    && (forall i | 0 <= i < |d.writes| && d.writes[i].put == p :: d.writes[i].raw == D.Inverse(d.writes[i].inForce, d.puts[p].present))
    && (forall i, j | 0 <= i < j < |d.writes| && d.writes[i].put == p :: d.writes[j].put != p)
    && (d.confirms ==> DT.Observed(d.samples, d.puts[p]))
  }

  /** A client that heard success had its value land, unless what finished the put was an error without a message. */
  lemma SuccessMeansWritten(limits: QueueCore.Limits, steps: seq<Step>, p: PutId)
    requires p in After(limits, steps).puts && After(limits, steps).puts[p].answers == [X.Reply]
    ensures var s := After(limits, steps);
            && |s.puts[p].winners| > 0
            && (s.puts[p].winners[0].call != X.SendError("") ==> Housed(s, p) && Landed(s.runtimes[s.home[p]], p))
  {
    RunKeepsInv(limits, steps);
    var s := After(limits, steps);
    hide After, QueueOk, CoupledOk, CancelledOk;
    assert X.Inv(s.puts[p]);
    if s.puts[p].winners[0].call != X.SendError("") {
      MatchOf(s, p);
      hide X.Inv;
      var d := s.runtimes[s.home[p]];
      DT.PutFacts(d, p);
      forall i | 0 <= i < |d.writes| && d.writes[i].put == p
        ensures d.writes[i].raw == D.Inverse(d.writes[i].inForce, d.puts[p].present)
      {
        assert DT.WriteOk(d, d.writes[i]);
      }
    }
  }

  /** Once a peer's cancellation and the assignment of the id are both through, the put is out of the queue or condemned in it. */
  lemma CancelledPutIsDead(limits: QueueCore.Limits, steps: seq<Step>, p: PutId)
    requires var s := After(limits, steps);
             p in s.puts && s.puts[p].peer.Handled? && s.puts[p].peer.won && s.puts[p].submitter.Assigned?
    ensures var s := After(limits, steps); Dead(s.queue.q, s.puts[p].submitter.id)
  {
    RunKeepsInv(limits, steps);
    var s := After(limits, steps);
    hide After, DT.Inv, HomesOk, CoupledOk, QueueOk;
    assert X.Inv(s.puts[p]);
    assert s.puts[p].submitter.id in s.puts[p].cancels;
  }
}
