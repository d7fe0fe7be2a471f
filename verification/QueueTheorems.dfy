/** What the operation queue promises over whole runs. */
module QueueTheorems {
  import opened Basics
  import opened QueueCore
  import opened QueueInvariant
  import opened QueueRuns

  lemma SubmitKeeps(s: State, work: Work, now: int)
    requires StateInv(s)
    ensures StateInv(SubmitStep(s, work, now))
  {
    hide QueueCore.Submit, TokensOk, LanesOk, TasksOk, CountsOk, WorkersOk, StartsOk, NoticesOk, OutcomesOk;
    var t := SubmitStep(s, work, now);
    assert t.q == QueueCore.Submit(s.q, work, now).0;
    SubmitEffect(s.q, work, now);
    SubmitCounts(s.q, work, now);
    SubmitKeepsInv(s.q, work, now);
    IdsBounded(s.q);
    WorkersKept(s, t);
    RunningSame(s, t);
    StartsStay(s, t);
    NoticesStay(s, t);
    OutcomesStay(s, t);
  }

  lemma SubmitCounts(q: Queue, work: Work, now: int)
    ensures var (r, result) := QueueCore.Submit(q, work, now);
            && r.counts.completed == q.counts.completed && r.counts.running == q.counts.running
            && r.counts.accepted - r.counts.queued == q.counts.accepted - q.counts.queued
            && r.stopped == q.stopped
  {
  }

  lemma TakeCountsMove(q: Queue, now: int)
    requires q.runnable != []
    ensures var r := QueueCore.Take(q, now).0;
            && r.counts.completed == q.counts.completed && r.counts.accepted == q.counts.accepted
            && r.counts.queued + r.counts.running == q.counts.queued + q.counts.running
            && r.stopped == q.stopped
  {
  }

  lemma NoticesTake(s: State, w: nat, now: int)
    requires StateInv(s) && Possible(s, Take(w, now))
    ensures NoticesOk(TakeStep(s, w, now))
  {
    hide QueueCore.Take, TokensOk, LanesOk, CountsOk, WorkersOk, StartsOk, OutcomesOk, NoticesOk;
    var t := TakeStep(s, w, now);
    TakeEffect(s.q, now);
    IdsBounded(s.q);
    var taken := QueueCore.Take(s.q, now).1;
    if taken.Some? && taken.value.late {
      assert TaskOk(s.q, taken.value.id);
      NoticesOwe(s, t, taken.value.id, Deadline);
    } else {
      NoticesStay(s, t);
    }
  }

  lemma OutcomesTake(s: State, w: nat, now: int)
    requires StateInv(s) && Possible(s, Take(w, now))
    ensures OutcomesOk(TakeStep(s, w, now))
  {
    hide QueueCore.Take, TokensOk, LanesOk, TasksOk, CountsOk, WorkersOk, StartsOk, OutcomesOk, NoticesOk;
    var t := TakeStep(s, w, now);
    TakeEffect(s.q, now);
    var taken := QueueCore.Take(s.q, now).1;
    if taken.Some? {
      var id := taken.value.id;
      if taken.value.late {
        assert HasNotice(t, id);
      } else {
        assert t.log[|s.log|] == Started(id, s.q.runnable[0], now);
        assert HasStarted(t.log, id);
      }
    }
    OutcomesStay(s, t);
  }

  lemma TakeKeeps(s: State, w: nat, now: int)
    requires StateInv(s) && Possible(s, Take(w, now))
    ensures StateInv(TakeStep(s, w, now))
  {
    hide QueueCore.Take, TokensOk, LanesOk, TasksOk, CountsOk, WorkersOk, StartsOk, OutcomesOk, NoticesOk;
    assert TakeStep(s, w, now).q == QueueCore.Take(s.q, now).0;
    TakeKeepsInv(s.q, now);
    TakeCountsMove(s.q, now);
    WorkersTake(s, w, now);
    StartsTake(s, w, now);
    NoticesTake(s, w, now);
    OutcomesTake(s, w, now);
  }

  lemma StartsReturn(s: State, w: nat, threw: bool)
    requires StateInv(s) && Possible(s, Return(w, threw))
    ensures StartsOk(ReturnStep(s, w, threw))
  {
    hide TokensOk, LanesOk, TasksOk, CountsOk, WorkersOk, OutcomesOk, NoticesOk, StartsOk;
    var t := ReturnStep(s, w, threw);
    forall id | Running(s, id)
      ensures Running(t, id) || HasReturned(t.log, id, |s.log|)
    {
      var v: nat :| Is(s, v, Busy(id, false));
      if v == w {
        assert t.log[|s.log|] == Returned(id);
      } else {
        assert Is(t, v, Busy(id, false));
      }
    }
    StartsStay(s, t);
  }

  lemma NoticesReturn(s: State, w: nat, threw: bool)
    requires StateInv(s) && Possible(s, Return(w, threw))
    ensures NoticesOk(ReturnStep(s, w, threw))
  {
    hide Inv, OutcomesOk, StartsOk, NoticesOk;
    var t, id := ReturnStep(s, w, threw), s.workers[w].id;
    if s.workers[w].late {
      forall v | 0 <= v < |t.workers|
        ensures t.workers[v] != Busy(id, true)
      {
        assert Holds(s.workers[w], id);
        assert v != w ==> !Holds(s.workers[v], id);
      }
      LateIsDeadline(s, w);
      NoticesMade(s, t, id);
    } else {
      NoticesStay(s, t);
    }
  }

  lemma LateIsDeadline(s: State, w: nat)
    requires NoticesOk(s) && w < |s.workers| && s.workers[w].Busy? && s.workers[w].late
    ensures s.workers[w].id in s.owed && s.owed[s.workers[w].id] == Deadline
  {
    assert s.workers[w] == Busy(s.workers[w].id, true);
  }

  lemma OutcomesReturn(s: State, w: nat, threw: bool)
    requires StateInv(s) && Possible(s, Return(w, threw))
    ensures OutcomesOk(ReturnStep(s, w, threw))
  {
    hide Inv, WorkersOk, StartsOk, OutcomesOk;
    var t := ReturnStep(s, w, threw);
    if s.workers[w].late {
      assert t.log[|s.log|] == Notified(s.workers[w].id, Deadline);
    }
    OutcomesStay(s, t);
  }

  lemma ReturnKeeps(s: State, w: nat, threw: bool)
    requires StateInv(s) && Possible(s, Return(w, threw))
    ensures StateInv(ReturnStep(s, w, threw))
  {
    hide TokensOk, LanesOk, TasksOk, CountsOk, WorkersOk, OutcomesOk, NoticesOk, StartsOk;
    WorkersReturn(s, w, threw);
    StartsReturn(s, w, threw);
    NoticesReturn(s, w, threw);
    OutcomesReturn(s, w, threw);
  }

  lemma StartsComplete(s: State, w: nat)
    requires StateInv(s) && Possible(s, Complete(w))
    ensures StartsOk(Effect(s, Complete(w)))
  {
    hide Finish, TokensOk, LanesOk, TasksOk, CountsOk, OutcomesOk, NoticesOk, StartsOk;
    var t, id := Effect(s, Complete(w)), s.workers[w].id;
    FinishEffect(s.q, id);
    forall x | Running(s, x) && x in s.q.tasks && s.q.tasks[x].active
      ensures Running(t, x) && x in t.q.tasks && t.q.tasks[x].active
    {
      var v: nat :| Is(s, v, Busy(x, false));
      assert Holds(s.workers[v], x) && Holds(s.workers[w], id);
      assert Is(t, v, Busy(x, false));
    }
    StartsStay(s, t);
  }

  lemma CompleteKeeps(s: State, w: nat)
    requires StateInv(s) && Possible(s, Complete(w))
    ensures StateInv(Effect(s, Complete(w)))
  {
    hide Finish, TokensOk, LanesOk, TasksOk, CountsOk, OutcomesOk, NoticesOk, StartsOk;
    var t, id := Effect(s, Complete(w)), s.workers[w].id;
    assert Holds(s.workers[w], id);
    FinishEffect(s.q, id);
    FinishCounts(s.q, id);
    FinishKeepsInv(s.q, id);
    WorkersComplete(s, w);
    StartsComplete(s, w);
    NoticesStay(s, t);
    ActiveHasOutcome(s, id);
    OutcomesStay(s, t);
  }

  lemma FinishCounts(q: Queue, id: TaskId)
    requires id in q.tasks && q.tasks[id].key in q.lanes
    ensures var r := Finish(q, id);
            && r.counts.completed == q.counts.completed + 1 && r.counts.running == q.counts.running - 1
            && r.counts.queued == q.counts.queued && r.counts.accepted == q.counts.accepted && r.stopped == q.stopped
  {
  }

  lemma ActiveHasOutcome(s: State, id: TaskId)
    requires OutcomesOk(s) && id in s.q.tasks && s.q.tasks[id].active
    ensures HasStarted(s.log, id) || HasNotice(s, id)
  {
  }

  lemma ExitKeeps(s: State, w: nat)
    requires StateInv(s) && Possible(s, Exit(w))
    ensures StateInv(Effect(s, Exit(w)))
  {
    hide TokensOk, LanesOk, TasksOk, CountsOk, WorkersOk, OutcomesOk, NoticesOk, StartsOk;
    var t := Effect(s, Exit(w));
    WorkersExit(s, w);
    forall id | Running(s, id)
      ensures Running(t, id)
    {
      var v: nat :| Is(s, v, Busy(id, false));
      assert Is(t, v, Busy(id, false));
    }
    StartsStay(s, t);
    NoticesStay(s, t);
    OutcomesStay(s, t);
  }

  /** Expiry and cancellation of a task not yet failed. */
  lemma OweKeeps(s: State, q: Queue, id: TaskId, reason: Failure)
    requires StateInv(s) && Inv(q) && id in s.q.tasks && !s.q.tasks[id].failed && Condemned(s.q, q, id)
    requires reason == Deadline || reason == Cancelled
    requires q.counts.accepted == s.q.counts.accepted && q.counts.completed == s.q.counts.completed
    requires q.counts.running == s.q.counts.running
    requires q.counts.queued == s.q.counts.queued - (if s.q.tasks[id].active then 0 else 1)
    ensures StateInv(Owe(s, q, id, reason))
  {
    hide TokensOk, LanesOk, TasksOk, CountsOk, WorkersOk, OutcomesOk, NoticesOk, StartsOk;
    var t := Owe(s, q, id, reason);
    IdsBounded(s.q);
    WorkersKept(s, t);
    RunningSame(s, t);
    StartsStay(s, t);
    NoticesOwe(s, t, id, reason);
    assert HasNotice(t, id);
    OutcomesStay(s, t);
  }

  lemma RunningSame(s: State, t: State)
    requires s.workers == t.workers
    ensures forall id :: Running(s, id) <==> Running(t, id)
  {
    forall id
      ensures Running(s, id) <==> Running(t, id)
    {
      if w :| Is(s, w, Busy(id, false)) {
        assert Is(t, w, Busy(id, false));
      }
      if w :| Is(t, w, Busy(id, false)) {
        assert Is(s, w, Busy(id, false));
      }
    }
  }

  lemma CondemnCounts(q: Queue, id: TaskId)
    requires id in q.tasks && q.tasks[id].key in q.lanes && !q.tasks[id].failed
    ensures forall r | r == QueueCore.Expire(q, id) || r == QueueCore.Cancel(q, id) ::
              && r.counts.accepted == q.counts.accepted && r.counts.completed == q.counts.completed
              && r.counts.running == q.counts.running
              && r.counts.queued == q.counts.queued - (if q.tasks[id].active then 0 else 1)
  {
  }

  lemma ExpireKeeps(s: State, id: TaskId, now: int)
    requires StateInv(s) && Possible(s, Expire(id, now))
    ensures StateInv(Effect(s, Expire(id, now)))
  {
    hide QueueCore.Expire, TokensOk, LanesOk, TasksOk, CountsOk, WorkersOk, OutcomesOk, NoticesOk, StartsOk;
    CondemnEffect(s.q, id);
    ExpireKeepsInv(s.q, id);
    if s.q.tasks[id].failed {
      var t := Effect(s, Expire(id, now));
      WorkersKept(s, t);
      RunningSame(s, t);
      StartsStay(s, t);
      NoticesStay(s, t);
      OutcomesStay(s, t);
    } else {
      CondemnCounts(s.q, id);
      OweKeeps(s, QueueCore.Expire(s.q, id), id, Deadline);
    }
  }

  lemma CancelKeeps(s: State, id: TaskId)
    requires StateInv(s) && Possible(s, Cancel(id))
    ensures StateInv(Effect(s, Cancel(id)))
  {
    hide QueueCore.Cancel, TokensOk, LanesOk, TasksOk, CountsOk, WorkersOk, OutcomesOk, NoticesOk, StartsOk;
    if Cancellable(s.q, id) {
      CondemnEffect(s.q, id);
      CondemnCounts(s.q, id);
      CancelKeepsInv(s.q, id);
      OweKeeps(s, QueueCore.Cancel(s.q, id), id, Cancelled);
    }
  }

  lemma StopKeeps(s: State)
    requires StateInv(s)
    ensures StateInv(StopStep(s))
  {
    hide TokensOk, LanesOk, TasksOk, CountsOk, WorkersOk, OutcomesOk, NoticesOk, StartsOk;
    if !s.q.stopped {
      var t := StopStep(s);
      StopKeepsInv(s.q);
      WorkersKept(s, t);
      RunningSame(s, t);
      StartsStay(s, t);
      NoticesStop(s);
      StopJudgesAll(s);
      OutcomesStay(s, t);
    }
  }

  lemma StopJudgesAll(s: State)
    requires !s.q.stopped
    ensures NoticesKept(s, StopStep(s))
    ensures forall id | id in s.q.tasks && !s.q.tasks[id].failed :: HasNotice(StopStep(s), id)
  {
    var t := StopStep(s);
    assert forall id | id in s.owed :: id in t.owed;
    assert forall id | id in s.q.tasks && !s.q.tasks[id].failed :: id in t.owed;
  }

  lemma NotifyKeeps(s: State, id: TaskId)
    requires StateInv(s) && Possible(s, Notify(id))
    ensures StateInv(Effect(s, Notify(id)))
  {
    hide TokensOk, LanesOk, TasksOk, CountsOk, WorkersOk, OutcomesOk, StartsOk;
    var t := Effect(s, Notify(id));
    WorkersKept(s, t);
    RunningSame(s, t);
    StartsStay(s, t);
    NoticesMade(s, t, id);
    assert t.log[|s.log|] == Notified(id, s.owed[id]);
    assert HasNotice(t, id);
    OutcomesStay(s, t);
  }

  lemma DrainKeeps(s: State)
    requires StateInv(s) && Possible(s, Drain)
    ensures StateInv(Effect(s, Drain))
  {
    hide TokensOk, LanesOk, CountsOk, OutcomesOk, NoticesOk, StartsOk;
    var t := Effect(s, Drain);
    DrainKeepsInv(s.q);
    assert forall w, id | 0 <= w < |s.workers| :: !Holds(s.workers[w], id);
    assert forall id :: !Running(s, id);
    StartsStay(s, t);
    NoticesStay(s, t);
    forall id | id in s.q.tasks
      ensures HasNotice(s, id)
    {
      assert TaskOk(s.q, id);
      FailedHasNotice(s, id);
    }
    OutcomesStay(s, t);
  }

  lemma FailedHasNotice(s: State, id: TaskId)
    requires OutcomesOk(s) && id in s.q.tasks && s.q.tasks[id].failed
    ensures HasNotice(s, id)
  {
  }

  /** Every step of every thread keeps the invariant. */
  lemma StepKeeps(s: State, step: Step)
    requires StateInv(s)
    ensures StateInv(Apply(s, step))
  {
    hide StateInv;
    if Possible(s, step) {
      match step
      case Submit(work, now) => SubmitKeeps(s, work, now);
      case Take(w, now) => TakeKeeps(s, w, now);
      case Return(w, threw) => ReturnKeeps(s, w, threw);
      case Complete(w) => CompleteKeeps(s, w);
      case Exit(w) => ExitKeeps(s, w);
      case Expire(id, now) => ExpireKeeps(s, id, now);
      case Cancel(id) => CancelKeeps(s, id);
      case Stop => StopKeeps(s);
      case Notify(id) => NotifyKeeps(s, id);
      case Drain => DrainKeeps(s);
    }
  }

  lemma {:induction false} RunKeeps(limits: Limits, steps: seq<Step>)
    ensures StateInv(After(Start(limits), steps))
    decreases |steps|
  {
    if steps == [] {
      TotalNone(Bytes, 0);
      TotalNone(Waiting, 0);
      TotalNone(Active, 0);
    } else {
      RunKeeps(limits, steps[..|steps| - 1]);
      StepKeeps(After(Start(limits), steps[..|steps| - 1]), steps[|steps| - 1]);
    }
  }

  // ---- promises ----

  /** The key's only token is at this position. */
  ghost predicate TokenAt(q: Queue, key: Key, i: nat) {
    i < |q.runnable| && q.runnable[i] == key && key !in q.runnable[..i] && key !in q.runnable[i + 1..]
  }

  ghost predicate OneToken(q: Queue, key: Key) {
    exists i: nat :: TokenAt(q, key, i)
  }

  /** In every run: one active task per key, one token per idle lane with work, and exact, bounded accounting. */
  lemma SchedulerInvariant(limits: Limits, steps: seq<Step>)
    ensures var s := After(Start(limits), steps);
            && (forall a, b | a in s.q.tasks && b in s.q.tasks && s.q.tasks[a].active && s.q.tasks[b].active ::
                  s.q.tasks[a].key == s.q.tasks[b].key ==> a == b)
            && (forall k | k in s.q.lanes && !s.q.lanes[k].active && s.q.lanes[k].queue != [] :: OneToken(s.q, k))
            && s.q.counts.residentBytes == Total(Bytes, s.q.tasks, s.q.nextId) <= s.q.limits.residentBytes
            && s.q.limits == limits
            && (!s.drained ==>
                  s.q.counts.accepted == s.q.counts.completed + s.q.counts.queued + s.q.counts.running + s.released)
  {
    RunKeeps(limits, steps);
    LimitsStay(limits, steps);
    var q := After(Start(limits), steps).q;
    forall k | k in q.lanes && !q.lanes[k].active && q.lanes[k].queue != []
      ensures OneToken(q, k)
    {
      TokenOf(q, k);
    }
  }

  lemma TokenOf(q: Queue, k: Key)
    requires TokensOk(q) && k in q.lanes && !q.lanes[k].active
    ensures OneToken(q, k)
  {
    assert k in q.runnable;
    var i: nat :| i < |q.runnable| && q.runnable[i] == k;
    assert TokenAt(q, k, i);
  }

  lemma {:induction false} LimitsStay(limits: Limits, steps: seq<Step>)
    ensures After(Start(limits), steps).q.limits == limits
    decreases |steps|
  {
    if steps != [] {
      hide Apply;
      LimitsStay(limits, steps[..|steps| - 1]);
      LimitsStep(After(Start(limits), steps[..|steps| - 1]), steps[|steps| - 1]);
    }
  }

  lemma LimitsStep(s: State, step: Step)
    ensures Apply(s, step).q.limits == s.q.limits
  {
  }

  /** Tasks of a key start in submission order, each only after the run of the one before has returned. */
  lemma SuccessorWaits(limits: Limits, steps: seq<Step>, i: nat, j: nat)
    requires var log := After(Start(limits), steps).log;
             i < j < |log| && log[i].Started? && log[j].Started? && log[i].key == log[j].key
    ensures var log := After(Start(limits), steps).log;
            log[i].id < log[j].id && exists m :: i < m < j && log[m] == Returned(log[i].id)
  {
    RunKeeps(limits, steps);
    var log := After(Start(limits), steps).log;
    assert HasReturnedBetween(log, log[i].id, i, j);
    var m :| i < m < j && m < |log| && log[m] == Returned(log[i].id);
  }

  /** Deadline, cancellation and shutdown tell a task at most once in total that it failed. */
  lemma CondemnedOnce(limits: Limits, steps: seq<Step>, i: nat, j: nat)
    requires var log := After(Start(limits), steps).log;
             i < j < |log| && Judged(log[i]) && Judged(log[j])
    ensures After(Start(limits), steps).log[i].id != After(Start(limits), steps).log[j].id
  {
    RunKeeps(limits, steps);
  }

  ghost predicate NoRunOnceCondemned(log: seq<Event>) {
    forall i, j | 0 <= i < j < |log| && Judged(log[i]) && log[j].Started? :: log[i].id != log[j].id
  }

  /** A worker never starts a task that has been condemned, even if its callback is still to be made. */
  lemma StartedIsNotCondemned(s: State, w: nat, now: int)
    requires StateInv(s) && Possible(s, Take(w, now)) && TakeStep(s, w, now).log != s.log
    ensures var id := TakeStep(s, w, now).workers[w].id;
            && TakeStep(s, w, now).log == s.log + [Started(id, s.q.runnable[0], now)]
            && id !in s.owed && forall i | 0 <= i < |s.log| && Judged(s.log[i]) :: s.log[i].id != id
  {
    hide QueueCore.Take, TokensOk, LanesOk, CountsOk, WorkersOk, StartsOk, OutcomesOk;
    TakeEffect(s.q, now);
    var id := QueueCore.Take(s.q, now).1.value.id;
    assert TaskOk(s.q, id);
  }

  /** A step adds at most two events, and a start only of a task that nothing has condemned. */
  lemma NoRunStep(s: State, step: Step)
    requires StateInv(s) && NoRunOnceCondemned(s.log)
    ensures NoRunOnceCondemned(Apply(s, step).log)
  {
    hide StateInv, Inv, NoRunOnceCondemned;
    var t := Apply(s, step);
    if Possible(s, step) && step.Take? && TakeStep(s, step.w, step.now).log != s.log {
      StartedIsNotCondemned(s, step.w, step.now);
      assert t.log == s.log + [t.log[|s.log|]];
      NoRunAppend(s.log, [t.log[|s.log|]]);
    } else {
      var more := t.log[|s.log|..];
      assert t.log == s.log + more && forall i | 0 <= i < |more| :: !more[i].Started?;
      NoRunAppend(s.log, more);
    }
  }

  lemma NoRunAppend(log: seq<Event>, more: seq<Event>)
    requires NoRunOnceCondemned(log) && |more| <= 2
    requires forall j | 0 <= j < |more| && more[j].Started? ::
               j == 0 && forall i | 0 <= i < |log| && Judged(log[i]) :: log[i].id != more[j].id
    ensures NoRunOnceCondemned(log + more)
  {
  }

  lemma {:induction false} NoRunAfterFailure(limits: Limits, steps: seq<Step>)
    ensures NoRunOnceCondemned(After(Start(limits), steps).log)
    decreases |steps|
  {
    hide StateInv, Apply;
    if steps != [] {
      RunKeeps(limits, steps[..|steps| - 1]);
      NoRunAfterFailure(limits, steps[..|steps| - 1]);
      NoRunStep(After(Start(limits), steps[..|steps| - 1]), steps[|steps| - 1]);
    }
  }

  /** After shutdown every submitted task has run to its return, or has been told that it failed. */
  lemma NoTaskForgotten(limits: Limits, steps: seq<Step>, i: nat)
    requires var s := After(Start(limits), steps); s.drained && i < |s.log| && s.log[i].Submitted?
    ensures var s := After(Start(limits), steps);
            (HasStarted(s.log, s.log[i].id) && HasReturned(s.log, s.log[i].id, 0)) || HasNotice(s, s.log[i].id)
  {
    RunKeeps(limits, steps);
    var s := After(Start(limits), steps);
    var id := s.log[i].id;
    if HasStarted(s.log, id) {
      var k :| 0 <= k < |s.log| && s.log[k].Started? && s.log[k].id == id;
      assert StartOk(s, k);
      var m :| k <= m < |s.log| && s.log[m] == Returned(id);
      assert HasReturned(s.log, id, 0);
    }
  }

  /** Look-ups the code makes without checking always find their entry. */
  lemma LookupsSucceed(limits: Limits, steps: seq<Step>)
    ensures var s := After(Start(limits), steps);
            && (forall id | id in s.q.tasks :: s.q.tasks[id].key in s.q.lanes && (!s.q.tasks[id].failed ==> s.q.tasks[id].timed))
            && (forall k | k in s.q.runnable :: k in s.q.lanes)
            && (forall w | 0 <= w < |s.workers| && s.workers[w].Ran? :: s.workers[w].id in s.q.tasks)
  {
    RunKeeps(limits, steps);
    var s := After(Start(limits), steps);
    hide After, StartsOk, NoticesOk, OutcomesOk, AccountOk, CountsOk, LanesOk;
    forall id | id in s.q.tasks
      ensures s.q.tasks[id].key in s.q.lanes && (!s.q.tasks[id].failed ==> s.q.tasks[id].timed)
    {
      assert TaskOk(s.q, id);
    }
    assert forall w | 0 <= w < |s.workers| && s.workers[w].Ran? :: Holds(s.workers[w], s.workers[w].id);
  }

  // ---- fairness ----

  ghost predicate TakesToken(s: State, step: Step, key: Key) {
    step.Take? && Possible(s, step) && s.q.runnable[0] == key
  }

  /** No step of the run takes the key's token. */
  ghost predicate NeverTaken(s: State, steps: seq<Step>, key: Key) {
    steps == [] ||
    (NeverTaken(s, steps[..|steps| - 1], key) && !TakesToken(After(s, steps[..|steps| - 1]), steps[|steps| - 1], key))
  }

  /** Key b waits, and key a has no token in front of it. */
  ghost predicate AheadOf(q: Queue, b: Key, a: Key) {
    exists i :: 0 <= i < |q.runnable| && q.runnable[i] == b && a !in q.runnable[..i]
  }

  /** A step appends tokens, takes the first one, or clears them all after shutdown. */
  lemma TokensMove(s: State, step: Step)
    requires StateInv(s) && Possible(s, step)
    ensures var r, t := s.q.runnable, Effect(s, step).q.runnable;
            if step.Drain? then true
            else if step.Take? then t == r[1..]
            else |r| <= |t| && t[..|r|] == r
  {
    hide StartsOk, NoticesOk, OutcomesOk, CountsOk, LanesOk;
    if step.Take? {
      FrontLaneKnown(s.q);
    }
  }

  lemma FrontLaneKnown(q: Queue)
    requires TokensOk(q) && q.runnable != []
    ensures q.runnable[0] in q.lanes
  {
    assert q.runnable[0] in q.runnable;
  }

  lemma AheadStays(s: State, step: Step, b: Key, a: Key)
    requires StateInv(s) && !s.q.stopped && AheadOf(s.q, b, a) && !TakesToken(s, step, b)
    ensures AheadOf(Apply(s, step).q, b, a) && !TakesToken(s, step, a)
  {
    hide StateInv, QueueCore.Take;
    var i :| 0 <= i < |s.q.runnable| && s.q.runnable[i] == b && a !in s.q.runnable[..i];
    if Possible(s, step) {
      TokensMove(s, step);
      var r, t := s.q.runnable, Effect(s, step).q.runnable;
      if step.Take? {
        assert i > 0;
        assert r[0] in r[..i];
        assert t[i - 1] == b && t[..i - 1] == r[..i][1..];
      } else {
        assert t[i] == r[i] && t[..i] == r[..i];
      }
    }
  }

  /** Once the queue is stopped no token is taken any more. */
  lemma StoppedStays(s: State, step: Step)
    requires s.q.stopped
    ensures Apply(s, step).q.stopped && !TakesToken(s, step, "") && forall k :: !TakesToken(s, step, k)
  {
  }

  /**
   A key whose token waits when another key's task starts is served before that other key starts again:
   as long as its own token is not taken, neither is the other's.
   */
  lemma {:induction false} NoOvertaking(limits: Limits, before: seq<Step>, w: nat, now: int, steps: seq<Step>, a: Key, b: Key)
    requires var s := After(Start(limits), before);
             && TakesToken(s, Take(w, now), a) && a != b && b in s.q.runnable
             && NeverTaken(Apply(s, Take(w, now)), steps, b)
    ensures NeverTaken(Apply(After(Start(limits), before), Take(w, now)), steps, a)
    decreases |steps|
  {
    var s := After(Start(limits), before);
    RunKeeps(limits, before);
    StepKeeps(s, Take(w, now));
    TakenIsBehind(s, w, now, a, b);
    AheadAlong(Apply(s, Take(w, now)), steps, a, b);
  }

  lemma TakenIsBehind(s: State, w: nat, now: int, a: Key, b: Key)
    requires StateInv(s) && TakesToken(s, Take(w, now), a) && a != b && b in s.q.runnable
    ensures AheadOf(Apply(s, Take(w, now)).q, b, a)
  {
    hide StartsOk, NoticesOk, OutcomesOk, CountsOk, LanesOk, WorkersOk, QueueCore.Take;
    TokensMove(s, Take(w, now));
    var r, t := s.q.runnable, Effect(s, Take(w, now)).q.runnable;
    var i :| 0 <= i < |r| && r[i] == b;
    assert t[i - 1] == b;
    forall k | 0 <= k < |t|
      ensures t[k] != a
    {
      assert t[k] == r[k + 1];
    }
    assert a !in t[..i - 1];
  }

  lemma {:induction false} AheadAlong(s: State, steps: seq<Step>, a: Key, b: Key)
    requires StateInv(s) && AheadOf(s.q, b, a) && NeverTaken(s, steps, b)
    ensures NeverTaken(s, steps, a)
    ensures var t := After(s, steps); StateInv(t) && (t.q.stopped || AheadOf(t.q, b, a))
    decreases |steps|
  {
    hide StateInv, Possible;
    if steps != [] {
      var shorter, step := steps[..|steps| - 1], steps[|steps| - 1];
      AheadAlong(s, shorter, a, b);
      var m := After(s, shorter);
      StepKeeps(m, step);
      if m.q.stopped {
        StoppedStays(m, step);
      } else {
        AheadStays(m, step, b, a);
      }
    }
  }
}
