/**
 Every interleaving of submitters, cancellers, the deadline timer, any number of workers and shutdown.
 One step is one lock-held region, the return of a task, or one call of a task's failure callback.
 */
module QueueRuns {
  import opened Basics
  import opened QueueCore
  import opened QueueInvariant

  /** A worker waits, runs a task (or only reports it late), or has run it and will complete it; it exits after a stop. */
  datatype Worker = Free | Busy(id: TaskId, late: bool) | Ran(id: TaskId) | Gone

  datatype Event =
    | Submitted(id: TaskId, work: Work)
    | Rejected(work: Work, reason: Failure)
    | Started(id: TaskId, key: Key, now: int)
    | Returned(id: TaskId)
    | Notified(id: TaskId, reason: Failure)

  /** `owed` holds the failure callbacks decided under the lock and not yet made; `log` is what has happened. */
  datatype State = State(
    q: Queue, workers: seq<Worker>, owed: map<TaskId, Failure>, released: nat, drained: bool, log: seq<Event>)

  datatype Step =
    | Submit(work: Work, now: int)
    | Take(w: nat, now: int)
    | Return(w: nat, threw: bool)
    | Complete(w: nat)
    | Exit(w: nat)
    | Expire(id: TaskId, now: int)
    | Cancel(id: TaskId)
    | Stop
    | Notify(id: TaskId)
    | Drain

  ghost predicate Is(s: State, w: nat, worker: Worker) {
    w < |s.workers| && s.workers[w] == worker
  }

  ghost predicate Possible(s: State, step: Step) {
    match step
    case Submit(_, _) => true
    case Take(w, _) => Is(s, w, Free) && !s.q.stopped && s.q.runnable != []
    case Return(w, _) => w < |s.workers| && s.workers[w].Busy? && (s.workers[w].late ==> s.workers[w].id in s.owed)
    case Complete(w) => w < |s.workers| && s.workers[w].Ran? && s.workers[w].id in s.q.tasks
                        && s.q.tasks[s.workers[w].id].key in s.q.lanes
    case Exit(w) => Is(s, w, Free) && s.q.stopped
    case Expire(id, now) => !s.q.stopped && Earliest(s.q, id) && s.q.tasks[id].deadline <= now
                            && s.q.tasks[id].key in s.q.lanes
    case Cancel(id) => Cancellable(s.q, id) ==> s.q.tasks[id].key in s.q.lanes
    case Stop => true
    case Notify(id) => id in s.owed && forall w | 0 <= w < |s.workers| :: s.workers[w] != Busy(id, true)
    case Drain => s.q.stopped && (forall w | 0 <= w < |s.workers| :: s.workers[w].Gone?)
                  && forall id | id in s.owed :: s.owed[id] == Cancelled
  }

  ghost function Owe(s: State, q: Queue, id: TaskId, reason: Failure): State {
    s.(q := q, owed := s.owed[id := reason],
       released := if id in q.tasks then s.released else s.released + 1)
  }

  ghost function SubmitStep(s: State, work: Work, now: int): State {
    var (q, result) := QueueCore.Submit(s.q, work, now);
    s.(q := q, log := s.log + [if result.Admitted? then Submitted(result.id, work) else Rejected(work, result.reason)])
  }

  ghost function TakeStep(s: State, w: nat, now: int): State
    requires s.q.runnable != [] && w < |s.workers|
  {
    var (q, taken) := QueueCore.Take(s.q, now);
    match taken
    case None => s.(q := q)
    case Some(Taken(id, late)) =>
      s.(q := q, workers := s.workers[w := Busy(id, late)],
         owed := if late then s.owed[id := Deadline] else s.owed,
         log := s.log + if late then [] else [Started(id, s.q.runnable[0], now)])
  }

  /** The task returned, or threw, or was only reported late by its worker. */
  ghost function ReturnStep(s: State, w: nat, threw: bool): State
    requires w < |s.workers| && s.workers[w].Busy?
  {
    var id := s.workers[w].id;
    s.(workers := s.workers[w := Ran(id)],
       owed := if s.workers[w].late then s.owed - {id} else s.owed,
       log := s.log + if s.workers[w].late then [Notified(id, Deadline)]
                      else if threw then [Returned(id), Notified(id, Exception)] else [Returned(id)])
  }

  ghost function StopStep(s: State): State {
    if s.q.stopped then s
    else s.(q := QueueCore.Stop(s.q),
            owed := s.owed + map id | id in s.q.tasks && !s.q.tasks[id].failed :: Stopped)
  }

  ghost function Effect(s: State, step: Step): State
    requires Possible(s, step)
  {
    match step
    case Submit(work, now) => SubmitStep(s, work, now)
    case Take(w, now) => TakeStep(s, w, now)
    case Return(w, threw) => ReturnStep(s, w, threw)
    case Complete(w) => s.(q := Finish(s.q, s.workers[w].id), workers := s.workers[w := Free])
    case Exit(w) => s.(workers := s.workers[w := Gone])
    case Expire(id, _) =>
      if s.q.tasks[id].failed then s.(q := QueueCore.Expire(s.q, id))
      else Owe(s, QueueCore.Expire(s.q, id), id, Deadline)
    case Cancel(id) => if Cancellable(s.q, id) then Owe(s, QueueCore.Cancel(s.q, id), id, Cancelled) else s
    case Stop => StopStep(s)
    case Notify(id) => s.(owed := s.owed - {id}, log := s.log + [Notified(id, s.owed[id])])
    case Drain => s.(q := QueueCore.Drain(s.q), drained := true)
  }

  ghost function Apply(s: State, step: Step): State {
    if Possible(s, step) then Effect(s, step) else s
  }

  ghost function After(s: State, steps: seq<Step>): State {
    if steps == [] then s else Apply(After(s, steps[..|steps| - 1]), steps[|steps| - 1])
  }

  ghost function Start(limits: Limits): State {
    State(QueueCore.Fresh(limits), seq(limits.workers, _ => Free), map[], 0, false, [])
  }

  // ---- invariant ----

  ghost predicate Holds(worker: Worker, id: TaskId) {
    (worker.Busy? || worker.Ran?) && worker.id == id
  }

  /** Workers and active tasks correspond one to one. */
  ghost predicate WorkersOk(s: State) {
    && (forall w, id | 0 <= w < |s.workers| && Holds(s.workers[w], id) :: id in s.q.tasks && s.q.tasks[id].active)
    && (forall v, w, id | 0 <= v < w < |s.workers| && Holds(s.workers[v], id) :: !Holds(s.workers[w], id))
    && (forall id | id in s.q.tasks && s.q.tasks[id].active :: Held(s, id))
  }

  ghost predicate Held(s: State, id: TaskId) {
    exists w :: 0 <= w < |s.workers| && Holds(s.workers[w], id)
  }

  /** A task whose run has begun and not returned. */
  ghost predicate Running(s: State, id: TaskId) {
    exists w :: Is(s, w, Busy(id, false))
  }

  ghost predicate HasReturned(log: seq<Event>, id: TaskId, from: nat) {
    exists m | from <= m < |log| :: log[m] == Returned(id)
  }

  /** Starts of one key are in submission order, each after the return of the one before. */
  ghost predicate StartsOk(s: State) {
    && (forall i | 0 <= i < |s.log| && s.log[i].Started? :: StartOk(s, i))
    && (forall i, j | 0 <= i < j < |s.log| && s.log[i].Started? && s.log[j].Started? && s.log[i].key == s.log[j].key ::
          s.log[i].id < s.log[j].id && HasReturnedBetween(s.log, s.log[i].id, i, j))
  }

  ghost predicate HasReturnedBetween(log: seq<Event>, id: TaskId, i: nat, j: nat) {
    exists m | i < m < j && m < |log| :: log[m] == Returned(id)
  }

  /** A start is past: its task is at most the running one of its key, and older than all waiting ones. */
  ghost predicate StartOk(s: State, i: nat)
    requires i < |s.log| && s.log[i].Started?
  {
    var id, key := s.log[i].id, s.log[i].key;
    && id <= s.q.nextId
    && (id in s.q.tasks ==> s.q.tasks[id].active)
    && (forall x | x in s.q.tasks && s.q.tasks[x].key == key && !s.q.tasks[x].active :: id < x)
    && (HasReturned(s.log, id, i) || (id in s.q.tasks && s.q.tasks[id].active && s.q.tasks[id].key == key && Running(s, id)))
  }

  ghost predicate Judged(e: Event) {
    e.Notified? && !e.reason.Exception?
  }

  /** A task is condemned at most once, and only a failed task is. */
  ghost predicate NoticesOk(s: State) {
    && (forall id | id in s.owed :: id <= s.q.nextId && !s.owed[id].Exception? && (id in s.q.tasks ==> s.q.tasks[id].failed))
    && (forall i | 0 <= i < |s.log| && Judged(s.log[i]) ::
          s.log[i].id !in s.owed && s.log[i].id <= s.q.nextId
          && (s.log[i].id in s.q.tasks ==> s.q.tasks[s.log[i].id].failed))
    && (forall i, j | 0 <= i < j < |s.log| && Judged(s.log[i]) && Judged(s.log[j]) :: s.log[i].id != s.log[j].id)
    && (forall w, id | 0 <= w < |s.workers| && s.workers[w] == Busy(id, true) :: id in s.owed && s.owed[id] == Deadline)
  }

  ghost predicate HasStarted(log: seq<Event>, id: TaskId) {
    exists i | 0 <= i < |log| :: log[i].Started? && log[i].id == id
  }

  ghost predicate HasNotice(s: State, id: TaskId) {
    id in s.owed || exists i | 0 <= i < |s.log| :: Judged(s.log[i]) && s.log[i].id == id
  }

  /** Every submitted task is still indexed, was started, or has been or will be told that it failed. */
  ghost predicate OutcomesOk(s: State) {
    && (forall i | 0 <= i < |s.log| && s.log[i].Submitted? ::
          s.log[i].id in s.q.tasks || HasStarted(s.log, s.log[i].id) || HasNotice(s, s.log[i].id))
    && (forall id | id in s.q.tasks && s.q.tasks[id].failed :: HasNotice(s, id))
    && (forall id | id in s.q.tasks && s.q.tasks[id].active :: HasStarted(s.log, id) || HasNotice(s, id))
  }

  /** Where every accepted task is. */
  ghost predicate AccountOk(s: State) {
    !s.drained ==>
      s.q.counts.accepted == s.q.counts.completed + s.q.counts.queued + s.q.counts.running + s.released
  }

  ghost predicate StateInv(s: State) {
    && Inv(s.q)
    && WorkersOk(s)
    && StartsOk(s)
    && NoticesOk(s)
    && OutcomesOk(s)
    && AccountOk(s)
    && (s.drained ==> s.q.stopped && s.q.tasks == map[])
  }

  // ---- effect of the lock-held regions on the task index ----

  lemma SubmitEffect(q: Queue, work: Work, now: int)
    ensures var (r, result) := QueueCore.Submit(q, work, now);
            && (result.Refused? ==> r.tasks == q.tasks && r.nextId == q.nextId)
            && (result.Admitted? ==>
                  && !q.stopped && result.id == r.nextId == q.nextId + 1
                  && r.tasks == q.tasks[r.nextId := Task(work.key, Charge(work), work.deadline, false, false, true)])
  {
  }

  lemma TakeEffect(q: Queue, now: int)
    requires TokensOk(q) && LanesOk(q) && TasksOk(q) && q.runnable != []
    ensures var (r, taken) := QueueCore.Take(q, now);
            && r.nextId == q.nextId
            && (taken.None? ==> r.tasks == q.tasks)
            && (taken.Some? ==>
                  var id := taken.value.id;
                  && id in q.tasks && q.tasks[id].key == q.runnable[0] && !q.tasks[id].active
                  && r.tasks == q.tasks[id := q.tasks[id].(active := true, failed := q.tasks[id].failed || taken.value.late)]
                  && forall x | x in q.tasks && q.tasks[x].key == q.runnable[0] && !q.tasks[x].active :: id <= x)
  {
    FrontLane(q);
    var key := q.runnable[0];
    var waiting := q.lanes[key].queue;
    forall x | x in q.tasks && q.tasks[x].key == key && !q.tasks[x].active
      ensures waiting != [] && waiting[0] <= x
    {
      assert TaskOk(q, x);
      var i :| 0 <= i < |waiting| && waiting[i] == x;
    }
  }

  lemma FinishEffect(q: Queue, id: TaskId)
    requires id in q.tasks && q.tasks[id].key in q.lanes
    ensures Finish(q, id).tasks == q.tasks - {id} && Finish(q, id).nextId == q.nextId
  {
  }

  /** Expiry or cancellation of a task that had not failed. */
  ghost predicate Condemned(q: Queue, r: Queue, id: TaskId)
    requires id in q.tasks
  {
    && r.nextId == q.nextId && r.stopped == q.stopped
    && r.tasks == if q.tasks[id].active then q.tasks[id := q.tasks[id].(failed := true, timed := false)] else q.tasks - {id}
  }

  lemma CondemnEffect(q: Queue, id: TaskId)
    requires id in q.tasks && q.tasks[id].key in q.lanes
    ensures !q.tasks[id].failed ==> Condemned(q, QueueCore.Expire(q, id), id) && Condemned(q, QueueCore.Cancel(q, id), id)
    ensures q.tasks[id].failed ==> QueueCore.Expire(q, id) == q.(tasks := q.tasks[id := q.tasks[id].(timed := false)])
  {
  }

  // ---- worker correspondence ----

  lemma WorkersKept(s: State, t: State)
    requires WorkersOk(s) && t.workers == s.workers
    requires forall id | id in s.q.tasks && s.q.tasks[id].active :: id in t.q.tasks && t.q.tasks[id].active
    requires forall id | id in t.q.tasks && t.q.tasks[id].active :: id in s.q.tasks && s.q.tasks[id].active
    ensures WorkersOk(t)
  {
    forall id | id in t.q.tasks && t.q.tasks[id].active
      ensures Held(t, id)
    {
      assert Held(s, id);
    }
  }

  lemma WorkersTake(s: State, w: nat, now: int)
    requires Inv(s.q) && WorkersOk(s) && Possible(s, Take(w, now))
    ensures WorkersOk(TakeStep(s, w, now))
  {
    hide QueueCore.Take, TokensOk, LanesOk, TasksOk, CountsOk;
    var t := TakeStep(s, w, now);
    TakeEffect(s.q, now);
    if QueueCore.Take(s.q, now).1.Some? {
      var id := t.workers[w].id;
      forall x | x in t.q.tasks && t.q.tasks[x].active
        ensures Held(t, x)
      {
        if x == id {
          assert Holds(t.workers[w], x);
        } else {
          assert Held(s, x);
          var v :| 0 <= v < |s.workers| && Holds(s.workers[v], x);
          assert Holds(t.workers[v], x);
        }
      }
    } else {
      WorkersKept(s, t);
    }
  }

  lemma WorkersReturn(s: State, w: nat, threw: bool)
    requires WorkersOk(s) && Possible(s, Return(w, threw))
    ensures WorkersOk(ReturnStep(s, w, threw))
  {
    var t := ReturnStep(s, w, threw);
    assert forall v, id | 0 <= v < |s.workers| :: Holds(t.workers[v], id) <==> Holds(s.workers[v], id);
    forall x | x in t.q.tasks && t.q.tasks[x].active
      ensures Held(t, x)
    {
      var v :| 0 <= v < |s.workers| && Holds(s.workers[v], x);
      assert Holds(t.workers[v], x);
    }
  }

  lemma WorkersComplete(s: State, w: nat)
    requires WorkersOk(s) && Possible(s, Complete(w))
    ensures WorkersOk(Effect(s, Complete(w)))
  {
    hide Finish;
    var t, id := Effect(s, Complete(w)), s.workers[w].id;
    FinishEffect(s.q, id);
    assert Holds(s.workers[w], id);
    forall x | x in t.q.tasks && t.q.tasks[x].active
      ensures Held(t, x)
    {
      assert Held(s, x);
      var v :| 0 <= v < |s.workers| && Holds(s.workers[v], x);
      assert Holds(t.workers[v], x);
    }
    forall v, x | 0 <= v < |t.workers| && Holds(t.workers[v], x)
      ensures x in t.q.tasks && t.q.tasks[x].active
    {
      assert v != w && Holds(s.workers[v], x);
    }
  }

  lemma WorkersExit(s: State, w: nat)
    requires WorkersOk(s) && Possible(s, Exit(w))
    ensures WorkersOk(Effect(s, Exit(w)))
  {
    var t := Effect(s, Exit(w));
    assert forall v, id | 0 <= v < |s.workers| :: Holds(t.workers[v], id) <==> Holds(s.workers[v], id);
    forall x | x in t.q.tasks && t.q.tasks[x].active
      ensures Held(t, x)
    {
      var v :| 0 <= v < |s.workers| && Holds(s.workers[v], x);
      assert Holds(t.workers[v], x);
    }
  }

  // ---- starts ----

  /** The tasks of t are tasks of s, with activity only gained by a start, or newer. */
  ghost predicate TasksMoveOn(s: State, t: State) {
    && s.q.nextId <= t.q.nextId
    && forall x | x in t.q.tasks ::
         if x in s.q.tasks then
           && t.q.tasks[x].key == s.q.tasks[x].key
           && (s.q.tasks[x].active ==> t.q.tasks[x].active)
           && (s.q.tasks[x].failed ==> t.q.tasks[x].failed)
         else x > s.q.nextId
  }

  ghost predicate Extends(s: State, t: State) {
    |s.log| <= |t.log| && t.log[..|s.log|] == s.log
  }

  lemma ReturnedStays(log: seq<Event>, more: seq<Event>, id: TaskId, from: nat)
    requires HasReturned(log, id, from) && |log| <= |more| && more[..|log|] == log
    ensures HasReturned(more, id, from)
  {
    var m :| from <= m < |log| && log[m] == Returned(id);
    assert more[m] == log[m];
  }

  lemma BetweenStays(log: seq<Event>, more: seq<Event>, id: TaskId, i: nat, j: nat)
    requires HasReturnedBetween(log, id, i, j) && |log| <= |more| && more[..|log|] == log
    ensures HasReturnedBetween(more, id, i, j)
  {
    var m :| i < m < j && m < |log| && log[m] == Returned(id);
    assert more[m] == log[m];
  }

  /** Steps that start nothing keep the order of starts. */
  lemma StartsStay(s: State, t: State)
    requires StartsOk(s) && TasksMoveOn(s, t) && Extends(s, t)
    requires forall i | |s.log| <= i < |t.log| :: !t.log[i].Started?
    requires forall id | Running(s, id) && id in s.q.tasks && s.q.tasks[id].active ::
               (Running(t, id) && id in t.q.tasks && t.q.tasks[id].active) || HasReturned(t.log, id, |s.log|)
    ensures StartsOk(t)
  {
    assert forall i | 0 <= i < |s.log| :: t.log[i] == s.log[i];
    forall i | 0 <= i < |t.log| && t.log[i].Started?
      ensures StartOk(t, i)
    {
      assert StartOk(s, i);
      var id := s.log[i].id;
      if HasReturned(s.log, id, i) {
        ReturnedStays(s.log, t.log, id, i);
      } else if HasReturned(t.log, id, |s.log|) {
        var m :| |s.log| <= m < |t.log| && t.log[m] == Returned(id);
        assert HasReturned(t.log, id, i);
      }
    }
    forall i, j | 0 <= i < j < |t.log| && t.log[i].Started? && t.log[j].Started? && t.log[i].key == t.log[j].key
      ensures t.log[i].id < t.log[j].id && HasReturnedBetween(t.log, t.log[i].id, i, j)
    {
      BetweenStays(s.log, t.log, s.log[i].id, i, j);
    }
  }

  /** A start comes after the return of every earlier start of its key, and of an older task. */
  lemma StartAppends(u: State, t: State, id: TaskId, key: Key, now: int, w: nat)
    requires StartsOk(u) && t == u.(log := u.log + [Started(id, key, now)]) && Is(t, w, Busy(id, false))
    requires id in t.q.tasks && t.q.tasks[id].active && t.q.tasks[id].key == key && id <= t.q.nextId
    requires forall x | x in t.q.tasks && t.q.tasks[x].key == key && !t.q.tasks[x].active :: id < x
    requires forall i | 0 <= i < |u.log| && u.log[i].Started? && u.log[i].key == key ::
               u.log[i].id < id && HasReturned(u.log, u.log[i].id, i)
    ensures StartsOk(t)
  {
    var n := |u.log|;
    assert forall i | 0 <= i < n :: t.log[i] == u.log[i];
    forall i | 0 <= i < |t.log| && t.log[i].Started?
      ensures StartOk(t, i)
    {
      if i < n {
        assert StartOk(u, i);
        if HasReturned(u.log, t.log[i].id, i) {
          ReturnedStays(u.log, t.log, t.log[i].id, i);
        } else {
          var v :| Is(u, v, Busy(t.log[i].id, false));
          assert Is(t, v, Busy(t.log[i].id, false));
        }
      }
    }
    forall i, j | 0 <= i < j < |t.log| && t.log[i].Started? && t.log[j].Started? && t.log[i].key == t.log[j].key
      ensures t.log[i].id < t.log[j].id && HasReturnedBetween(t.log, t.log[i].id, i, j)
    {
      if j < n {
        BetweenStays(u.log, t.log, u.log[i].id, i, j);
      } else {
        assert HasReturned(u.log, u.log[i].id, i);
        var m :| i <= m < n && u.log[m] == Returned(u.log[i].id);
        assert t.log[m] == u.log[m];
      }
    }
  }

  lemma StartsTake(s: State, w: nat, now: int)
    requires Inv(s.q) && StartsOk(s) && Possible(s, Take(w, now))
    ensures StartsOk(TakeStep(s, w, now))
  {
    hide QueueCore.Take, TokensOk, LanesOk, TasksOk, CountsOk;
    var t, key := TakeStep(s, w, now), s.q.runnable[0];
    TakeEffect(s.q, now);
    IdsBounded(s.q);
    NoneActive(s.q, key);
    var taken := QueueCore.Take(s.q, now).1;
    if taken.Some? {
      assert t.workers[w].id == taken.value.id;
    }
    assert t.q == QueueCore.Take(s.q, now).0;
    assert TasksMoveOn(s, t);
    var u := t.(log := s.log);
    forall id | Running(s, id)
      ensures Running(u, id)
    {
      var v :| Is(s, v, Busy(id, false));
      assert Is(u, v, Busy(id, false));
    }
    StartsStay(s, u);
    if t.log != s.log {
      forall i | 0 <= i < |u.log| && u.log[i].Started? && u.log[i].key == key
        ensures u.log[i].id < t.workers[w].id && HasReturned(u.log, u.log[i].id, i)
      {
        assert StartOk(s, i);
      }
      StartAppends(u, t, t.workers[w].id, key, now, w);
    }
  }

  lemma NoneActive(q: Queue, key: Key)
    requires TokensOk(q) && TasksOk(q) && key in q.runnable
    ensures forall x | x in q.tasks && q.tasks[x].key == key :: !q.tasks[x].active
  {
    forall x | x in q.tasks && q.tasks[x].key == key
      ensures !q.tasks[x].active
    {
      assert TaskOk(q, x);
    }
  }

  // ---- notices ----

  lemma NoticesStay(s: State, t: State)
    requires NoticesOk(s) && TasksMoveOn(s, t) && Extends(s, t) && t.owed == s.owed
    requires forall i | |s.log| <= i < |t.log| :: !Judged(t.log[i])
    requires forall w, id | 0 <= w < |t.workers| && t.workers[w] == Busy(id, true) ::
               w < |s.workers| && s.workers[w] == Busy(id, true)
    ensures NoticesOk(t)
  {
    assert forall i | 0 <= i < |s.log| :: t.log[i] == s.log[i];
  }

  /** Condemning a task that was not failed cannot repeat a notice. */
  lemma NoticesOwe(s: State, t: State, id: TaskId, reason: Failure)
    requires NoticesOk(s) && TasksMoveOn(s, t) && t.log == s.log && t.owed == s.owed[id := reason]
    requires id in s.q.tasks && !s.q.tasks[id].failed && id <= s.q.nextId && !reason.Exception?
    requires id in t.q.tasks ==> t.q.tasks[id].failed
    requires forall w, x | 0 <= w < |t.workers| && t.workers[w] == Busy(x, true) ::
               (w < |s.workers| && s.workers[w] == Busy(x, true)) || (x == id && reason == Deadline)
    ensures NoticesOk(t)
  {
  }

  lemma NoticesMade(s: State, t: State, id: TaskId)
    requires NoticesOk(s) && id in s.owed && t.q == s.q && t.owed == s.owed - {id}
    requires t.log == s.log + [Notified(id, s.owed[id])]
    requires forall w | 0 <= w < |t.workers| :: t.workers[w] != Busy(id, true)
    requires forall w, x | 0 <= w < |t.workers| && t.workers[w] == Busy(x, true) ::
               w < |s.workers| && s.workers[w] == Busy(x, true)
    ensures NoticesOk(t)
  {
    assert forall i | 0 <= i < |s.log| :: t.log[i] == s.log[i];
  }

  lemma NoticesStop(s: State)
    requires TasksOk(s.q) && NoticesOk(s)
    ensures NoticesOk(StopStep(s))
  {
    hide TasksOk;
    IdsBounded(s.q);
    var t := StopStep(s);
    forall id | id in t.owed
      ensures id <= t.q.nextId && !t.owed[id].Exception? && (id in t.q.tasks ==> t.q.tasks[id].failed)
    {
      assert id in s.owed || id in s.q.tasks;
    }
    forall w, id | 0 <= w < |t.workers| && t.workers[w] == Busy(id, true)
      ensures id in t.owed && t.owed[id] == Deadline
    {
      assert id in s.owed && s.owed[id] == Deadline;
      assert id in s.q.tasks ==> s.q.tasks[id].failed;
    }
  }

  // ---- outcomes ----

  lemma StartedStays(log: seq<Event>, more: seq<Event>, id: TaskId)
    requires HasStarted(log, id) && |log| <= |more| && more[..|log|] == log
    ensures HasStarted(more, id)
  {
    var i :| 0 <= i < |log| && log[i].Started? && log[i].id == id;
    assert more[i] == log[i];
  }

  ghost predicate NoticesKept(s: State, t: State) {
    forall id | id in s.owed :: HasNotice(t, id)
  }

  lemma NoticeStays(s: State, t: State, id: TaskId)
    requires HasNotice(s, id) && Extends(s, t) && NoticesKept(s, t)
    ensures HasNotice(t, id)
  {
    if id !in s.owed {
      var i :| 0 <= i < |s.log| && Judged(s.log[i]) && s.log[i].id == id;
      assert t.log[i] == s.log[i];
    }
  }

  /** Outcomes survive a step if the tasks that disappear, fail or become active in it have one. */
  lemma OutcomesStay(s: State, t: State)
    requires OutcomesOk(s) && Extends(s, t) && NoticesKept(s, t)
    requires forall i | |s.log| <= i < |t.log| && t.log[i].Submitted? :: t.log[i].id in t.q.tasks
    requires forall id | id in s.q.tasks && id !in t.q.tasks :: HasStarted(t.log, id) || HasNotice(t, id)
    requires forall id | id in t.q.tasks && t.q.tasks[id].failed ::
               (id in s.q.tasks && s.q.tasks[id].failed) || HasNotice(t, id)
    requires forall id | id in t.q.tasks && t.q.tasks[id].active ::
               (id in s.q.tasks && s.q.tasks[id].active) || HasStarted(t.log, id) || HasNotice(t, id)
    ensures OutcomesOk(t)
  {
    forall id | HasNotice(s, id)
      ensures HasNotice(t, id)
    {
      NoticeStays(s, t, id);
    }
    forall id | HasStarted(s.log, id)
      ensures HasStarted(t.log, id)
    {
      StartedStays(s.log, t.log, id);
    }
    forall i | 0 <= i < |t.log| && t.log[i].Submitted?
      ensures t.log[i].id in t.q.tasks || HasStarted(t.log, t.log[i].id) || HasNotice(t, t.log[i].id)
    {
      if i < |s.log| {
        assert t.log[i] == s.log[i];
      }
    }
  }
}
