/** What the queue does with each piece of work, in terms of what was submitted and when. */
module QueueTerms {
  import opened Basics
  import opened QueueCore
  import opened QueueInvariant
  import opened QueueRuns
  import opened QueueTheorems

  /** The work that was submitted under an id. */
  ghost function WorkOf(log: seq<Event>, id: TaskId): Option<Work> {
    if log == [] then None
    else
      var e := log[|log| - 1];
      if e.Submitted? && e.id == id then Some(e.work) else WorkOf(log[..|log| - 1], id)
  }

  /** An indexed task has the key and the deadline it was submitted with, and reserves at least its size. */
  ghost predicate KeepsTerms(task: Task, work: Work) {
    && task.key == work.key && task.deadline == work.deadline
    && work.bytes <= task.charge && 256 <= task.charge && (task.charge == work.bytes || task.charge == 256)
  }

  ghost predicate TermsOk(s: State) {
    && (forall id | id in s.q.tasks :: WorkOf(s.log, id).Some? && KeepsTerms(s.q.tasks[id], WorkOf(s.log, id).value))
    && (forall i | 0 <= i < |s.log| && s.log[i].Submitted? :: 1 <= s.log[i].id <= s.q.nextId)
  }

  /** A task is started only before its deadline, and under its key. */
  ghost predicate InTime(log: seq<Event>) {
    forall i | 0 <= i < |log| && log[i].Started? ::
      var work := WorkOf(log[..i], log[i].id);
      work.Some? && work.value.key == log[i].key && log[i].now < work.value.deadline
  }

  lemma {:induction false} WorkStays(log: seq<Event>, more: seq<Event>, id: TaskId)
    requires forall i | 0 <= i < |more| && more[i].Submitted? :: more[i].id != id
    ensures WorkOf(log + more, id) == WorkOf(log, id)
    decreases |more|
  {
    if more == [] {
      assert log + more == log;
    } else {
      var n := |more| - 1;
      WorkStays(log, more[..n], id);
      assert (log + more)[..|log + more| - 1] == log + more[..n];
    }
  }

  // ---- what every step keeps ----

  /** Tasks may go, and those that stay keep their terms. */
  ghost predicate SameTerms(q: Queue, r: Queue) {
    && r.nextId == q.nextId
    && forall x | x in r.tasks ::
         && x in q.tasks && r.tasks[x].key == q.tasks[x].key
         && r.tasks[x].deadline == q.tasks[x].deadline && r.tasks[x].charge == q.tasks[x].charge
  }

  lemma TermsStay(s: State, t: State)
    requires TermsOk(s) && SameTerms(s.q, t.q) && Extends(s, t)
    requires forall i | |s.log| <= i < |t.log| :: !t.log[i].Submitted?
    ensures TermsOk(t)
  {
    var more := t.log[|s.log|..];
    assert t.log == s.log + more;
    forall id | id in t.q.tasks
      ensures WorkOf(t.log, id) == WorkOf(s.log, id)
    {
      WorkStays(s.log, more, id);
    }
    hide WorkOf, KeepsTerms;
    forall i | 0 <= i < |t.log| && t.log[i].Submitted?
      ensures 1 <= t.log[i].id <= t.q.nextId
    {
      assert i < |s.log| && t.log[i] == s.log[i];
    }
  }

  lemma InTimeStays(s: State, t: State)
    requires InTime(s.log) && Extends(s, t)
    requires forall i | |s.log| <= i < |t.log| :: !t.log[i].Started?
    ensures InTime(t.log)
  {
    hide WorkOf;
    forall i | 0 <= i < |t.log| && t.log[i].Started?
      ensures t.log[..i] == s.log[..i] && t.log[i] == s.log[i]
    {
      assert t.log[..|s.log|][i] == t.log[i];
      assert t.log[..i] == t.log[..|s.log|][..i];
    }
  }

  /** The token at the front serves the first task of its lane, late exactly if its deadline has come. */
  lemma TakeIs(q: Queue, now: int)
    requires TokensOk(q) && LanesOk(q) && q.runnable != []
    ensures var key, (r, taken) := q.runnable[0], QueueCore.Take(q, now);
            && key in q.lanes
            && (taken.None? <==> q.lanes[key].queue == [])
            && (taken.Some? ==>
                  var id := q.lanes[key].queue[0];
                  && taken.value.id == id && id in q.tasks && q.tasks[id].key == key
                  && (if taken.value.late then now >= q.tasks[id].deadline else now < q.tasks[id].deadline))
            && SameTerms(q, r)
  {
    FrontLaneKnown(q);
    var key := q.runnable[0];
    if q.lanes[key].queue != [] {
      assert q.lanes[key].queue[0] in q.lanes[key].queue;
    }
  }

  lemma TakeTerms(s: State, w: nat, now: int)
    requires StateInv(s) && TermsOk(s) && InTime(s.log) && Possible(s, Take(w, now))
    ensures TermsOk(TakeStep(s, w, now)) && InTime(TakeStep(s, w, now).log)
  {
    hide QueueCore.Take, TasksOk, CountsOk, WorkersOk, StartsOk, NoticesOk, OutcomesOk, KeepsTerms;
    var t := TakeStep(s, w, now);
    TakeIs(s.q, now);
    TermsStay(s, t);
    if t.log != s.log {
      var id := QueueCore.Take(s.q, now).1.value.id;
      assert KeepsTerms(s.q.tasks[id], WorkOf(s.log, id).value);
      InTimeAppends(s.log, Started(id, s.q.runnable[0], now), s.q.tasks[id]);
    }
  }

  lemma InTimeAppends(log: seq<Event>, e: Event, task: Task)
    requires InTime(log) && e.Started? && WorkOf(log, e.id).Some? && KeepsTerms(task, WorkOf(log, e.id).value)
    requires task.key == e.key && e.now < task.deadline
    ensures InTime(log + [e])
  {
    hide WorkOf;
    assert (log + [e])[..|log|] == log;
    assert forall i | 0 <= i < |log| :: (log + [e])[..i] == log[..i] && (log + [e])[i] == log[i];
  }

  lemma SubmitTerms(s: State, work: Work, now: int)
    requires StateInv(s) && TermsOk(s) && InTime(s.log)
    ensures TermsOk(SubmitStep(s, work, now)) && InTime(SubmitStep(s, work, now).log)
  {
    hide QueueCore.Submit, TokensOk, LanesOk, CountsOk, WorkersOk, StartsOk, NoticesOk, OutcomesOk;
    var t := SubmitStep(s, work, now);
    SubmitEffect(s.q, work, now);
    IdsBounded(s.q);
    InTimeStays(s, t);
    assert t.q == QueueCore.Submit(s.q, work, now).0;
    if QueueCore.Submit(s.q, work, now).1.Admitted? {
      var id := s.q.nextId + 1;
      var e := Submitted(id, work);
      assert t.log == s.log + [e] && t.log[..|t.log| - 1] == s.log;
      forall x | x in t.q.tasks
        ensures WorkOf(t.log, x).Some? && KeepsTerms(t.q.tasks[x], WorkOf(t.log, x).value)
      {
        if x != id {
          WorkStays(s.log, [e], x);
        }
      }
    } else {
      TermsStay(s, t);
    }
  }

  /** All other steps. */
  lemma OtherTerms(s: State, step: Step)
    requires StateInv(s) && Possible(s, step) && !step.Submit? && !step.Take?
    ensures var t := Effect(s, step);
            && SameTerms(s.q, t.q) && Extends(s, t)
            && forall i | |s.log| <= i < |t.log| :: !t.log[i].Submitted? && !t.log[i].Started?
  {
    hide TokensOk, LanesOk, TasksOk, CountsOk, WorkersOk, StartsOk, NoticesOk, OutcomesOk;
    hide Finish, QueueCore.Expire, QueueCore.Cancel;
    match step
    case Complete(w) => FinishEffect(s.q, s.workers[w].id);
    case Expire(id, _) => CondemnEffect(s.q, id);
    case Cancel(id) =>
      if Cancellable(s.q, id) {
        CondemnEffect(s.q, id);
      }
    case _ =>
  }

  lemma StepTerms(s: State, step: Step)
    requires StateInv(s) && TermsOk(s) && InTime(s.log)
    ensures TermsOk(Apply(s, step)) && InTime(Apply(s, step).log)
  {
    hide StateInv, TermsOk, InTime, SameTerms;
    if Possible(s, step) {
      if step.Submit? {
        SubmitTerms(s, step.work, step.now);
      } else if step.Take? {
        TakeTerms(s, step.w, step.now);
      } else {
        OtherTerms(s, step);
        TermsStay(s, Effect(s, step));
        InTimeStays(s, Effect(s, step));
      }
    }
  }

  lemma {:induction false} RunTerms(limits: Limits, steps: seq<Step>)
    ensures TermsOk(After(Start(limits), steps)) && InTime(After(Start(limits), steps).log)
    decreases |steps|
  {
    if steps != [] {
      hide StateInv, TermsOk, InTime, Apply;
      RunTerms(limits, steps[..|steps| - 1]);
      RunKeeps(limits, steps[..|steps| - 1]);
      StepTerms(After(Start(limits), steps[..|steps| - 1]), steps[|steps| - 1]);
    }
  }

  // ---- promises ----

  /** In every run a task is started only under the key and before the deadline it was submitted with. */
  lemma StartedInTime(limits: Limits, steps: seq<Step>, i: nat)
    requires var log := After(Start(limits), steps).log; i < |log| && log[i].Started?
    ensures var log := After(Start(limits), steps).log;
            var work := WorkOf(log[..i], log[i].id);
            work.Some? && work.value.key == log[i].key && log[i].now < work.value.deadline
  {
    RunTerms(limits, steps);
  }

  /** Nobody is told about a deadline before it has come. */
  lemma DeadlineNoticeIsDue(limits: Limits, steps: seq<Step>, step: Step, id: TaskId)
    requires var s := After(Start(limits), steps);
             id in Apply(s, step).owed && Apply(s, step).owed[id] == Deadline && id !in s.owed
    ensures var work := WorkOf(After(Start(limits), steps).log, id);
            work.Some? && (step.Take? || step.Expire?) && work.value.deadline <= step.now
  {
    RunTerms(limits, steps);
    RunKeeps(limits, steps);
    var s := After(Start(limits), steps);
    hide After, StartsOk, NoticesOk, OutcomesOk, WorkersOk, CountsOk, TasksOk, WorkOf;
    if step.Take? {
      TakeIs(s.q, step.now);
      hide QueueCore.Take;
    }
  }

  /** A task that waits: indexed and not yet with a worker. */
  ghost predicate Waits(s: State, key: Key, id: TaskId) {
    id in s.q.tasks && s.q.tasks[id].key == key && !s.q.tasks[id].active
  }

  lemma FrontIsOldest(q: Queue, key: Key, id: TaskId)
    requires LanesOk(q) && TasksOk(q) && key in q.lanes && id in q.tasks && q.tasks[id].key == key && !q.tasks[id].active
    requires forall x | x in q.tasks && q.tasks[x].key == key && !q.tasks[x].active :: id <= x
    ensures q.lanes[key].queue != [] && q.lanes[key].queue[0] == id
  {
    assert TaskOk(q, id);
    var lane := q.lanes[key].queue;
    var i :| 0 <= i < |lane| && lane[i] == id;
    assert lane[0] in lane && lane[0] in q.tasks && q.tasks[lane[0]].key == key && !q.tasks[lane[0]].active;
    assert forall k | 0 < k < |lane| :: lane[0] < lane[k];
  }

  /** A worker that takes a token starts the key's oldest waiting task if its deadline has not come, and fails it otherwise. */
  lemma TakeServesOldest(limits: Limits, steps: seq<Step>, w: nat, now: int, id: TaskId)
    requires var s := After(Start(limits), steps);
             && Possible(s, Take(w, now)) && Waits(s, s.q.runnable[0], id)
             && forall x | Waits(s, s.q.runnable[0], x) :: id <= x
    ensures var s := After(Start(limits), steps);
            var t, work := Apply(s, Take(w, now)), WorkOf(s.log, id);
            && work.Some? && work.value.key == s.q.runnable[0] && w < |t.workers|
            && if now < work.value.deadline
               then t.log == s.log + [Started(id, work.value.key, now)] && t.owed == s.owed && t.workers[w] == Busy(id, false)
               else t.log == s.log && t.owed == s.owed[id := Deadline] && t.workers[w] == Busy(id, true)
  {
    RunTerms(limits, steps);
    RunKeeps(limits, steps);
    var s := After(Start(limits), steps);
    hide After, StartsOk, NoticesOk, OutcomesOk, WorkersOk, CountsOk, WorkOf;
    TakeIs(s.q, now);
    forall x | x in s.q.tasks && s.q.tasks[x].key == s.q.runnable[0] && !s.q.tasks[x].active
      ensures id <= x
    {
      assert Waits(s, s.q.runnable[0], x);
    }
    FrontIsOldest(s.q, s.q.runnable[0], id);
    hide QueueCore.Take, TasksOk, LanesOk, TokensOk;
  }

  // ---- admission ----

  ghost function WaitingIds(s: State, key: Key): set<TaskId> {
    set id | id in s.q.tasks && Waits(s, key, id)
  }

  ghost function Elements(ids: seq<TaskId>): set<TaskId> {
    set id | id in ids
  }

  lemma {:induction false} AscendingCount(ids: seq<TaskId>)
    requires Ascending(ids)
    ensures |Elements(ids)| == |ids|
  {
    if ids != [] {
      var rest, last := ids[..|ids| - 1], ids[|ids| - 1];
      AscendingCount(rest);
      assert last !in Elements(rest);
      assert Elements(ids) == Elements(rest) + {last};
    }
  }

  lemma LaneCount(s: State, key: Key)
    requires LanesOk(s.q) && TasksOk(s.q)
    ensures |WaitingIds(s, key)| == |LaneOf(s.q, key).queue|
  {
    var lane := LaneOf(s.q, key).queue;
    forall id | id in WaitingIds(s, key)
      ensures id in lane
    {
      assert TaskOk(s.q, id);
    }
    assert WaitingIds(s, key) == Elements(lane);
    AscendingCount(lane);
  }

  ghost predicate HasStop(steps: seq<Step>) {
    exists i | 0 <= i < |steps| :: steps[i].Stop?
  }

  lemma {:induction false} StoppedIff(limits: Limits, steps: seq<Step>)
    ensures After(Start(limits), steps).q.stopped <==> HasStop(steps)
    decreases |steps|
  {
    if steps != [] {
      var before := steps[..|steps| - 1];
      StoppedIff(limits, before);
      StopFlag(After(Start(limits), before), steps[|steps| - 1]);
      hide Apply;
      if HasStop(steps) && !steps[|steps| - 1].Stop? {
        var i :| 0 <= i < |steps| && steps[i].Stop?;
        assert before[i].Stop?;
      }
      if HasStop(before) {
        var i :| 0 <= i < |before| && before[i].Stop?;
        assert steps[i].Stop?;
      }
    }
  }

  lemma StopFlag(s: State, step: Step)
    ensures Apply(s, step).q.stopped <==> s.q.stopped || step.Stop?
  {
    hide CountIf, Total;
  }

  /** What a submission is told: stopped, too late, accepted if lane and bytes have room, otherwise overloaded. */
  ghost function Verdict(s: State, limits: Limits, stopped: bool, work: Work, now: int): Event {
    if stopped then Rejected(work, Failure.Stopped)
    else if now >= work.deadline then Rejected(work, Deadline)
    else if |WaitingIds(s, work.key)| < limits.queuedPerKey
         && Total(Bytes, s.q.tasks, s.q.nextId) + Max(256, work.bytes) <= limits.residentBytes
    then Submitted(s.q.nextId + 1, work)
    else Rejected(work, Overload)
  }

  lemma SubmissionIs(limits: Limits, steps: seq<Step>, work: Work, now: int)
    ensures var s := After(Start(limits), steps);
            var t := Apply(s, Submit(work, now));
            && t.log == s.log + [Verdict(s, limits, HasStop(steps), work, now)]
            && (t.log[|s.log|].Submitted? ==> Waits(t, work.key, s.q.nextId + 1))
  {
    RunKeeps(limits, steps);
    LimitsStay(limits, steps);
    StoppedIff(limits, steps);
    var s := After(Start(limits), steps);
    hide After, StartsOk, NoticesOk, OutcomesOk, WorkersOk, TokensOk, WaitingIds, Total;
    LaneCount(s, work.key);
  }

  // ---- bytes ----

  /** The bytes of the indexed submissions with ids up to n. */
  ghost function SubmittedBytes(s: State, n: nat): nat {
    (if n in s.q.tasks && WorkOf(s.log, n).Some? then WorkOf(s.log, n).value.bytes else 0)
    + if n == 0 then 0 else SubmittedBytes(s, n - 1)
  }

  lemma {:induction false} ChargesCover(s: State, n: nat)
    requires TermsOk(s)
    ensures SubmittedBytes(s, n) <= Total(Bytes, s.q.tasks, n)
  {
    if n > 0 {
      ChargesCover(s, n - 1);
    }
  }

  /** The submissions in the queue never hold more bytes than the limit. */
  lemma BytesWithinLimit(limits: Limits, steps: seq<Step>)
    ensures var s := After(Start(limits), steps); SubmittedBytes(s, s.q.nextId) <= limits.residentBytes
  {
    RunTerms(limits, steps);
    SchedulerInvariant(limits, steps);
    var s := After(Start(limits), steps);
    ChargesCover(s, s.q.nextId);
  }

  // ---- cancellation and expiry ----

  /** A task counts as failed exactly when it has been or will be told. */
  lemma FailedIff(s: State, id: TaskId)
    requires StateInv(s) && id in s.q.tasks
    ensures s.q.tasks[id].failed <==> HasNotice(s, id)
  {
    hide WorkersOk, StartsOk, Inv;
  }

  /** Cancelling a task that was not told anything yet tells it, and takes it out of its lane if it still waits. */
  lemma CancelTells(limits: Limits, steps: seq<Step>, id: TaskId)
    ensures var s := After(Start(limits), steps);
            var t := Apply(s, Cancel(id));
            if id in s.q.tasks && !HasNotice(s, id)
            then t.owed == s.owed[id := Cancelled] && t.log == s.log && t.workers == s.workers
                 && t.q.tasks.Keys == if s.q.tasks[id].active then s.q.tasks.Keys else s.q.tasks.Keys - {id}
            else t == s
  {
    RunKeeps(limits, steps);
    var s := After(Start(limits), steps);
    hide After, StartsOk, WorkersOk, QueueCore.Cancel, TokensOk, LanesOk, CountsOk;
    if id in s.q.tasks {
      FailedIff(s, id);
      assert TaskOk(s.q, id);
      CondemnEffect(s.q, id);
    }
  }

  /** The timer tells a task whose deadline has come, unless it was told already. */
  lemma ExpiryTells(limits: Limits, steps: seq<Step>, id: TaskId, now: int)
    requires Possible(After(Start(limits), steps), Expire(id, now))
    ensures var s := After(Start(limits), steps);
            var t := Apply(s, Expire(id, now));
            && t.log == s.log && t.workers == s.workers
            && if HasNotice(s, id) then t.owed == s.owed && t.q.tasks.Keys == s.q.tasks.Keys
               else t.owed == s.owed[id := Deadline]
                    && t.q.tasks.Keys == if s.q.tasks[id].active then s.q.tasks.Keys else s.q.tasks.Keys - {id}
  {
    RunKeeps(limits, steps);
    var s := After(Start(limits), steps);
    hide After, StartsOk, WorkersOk, QueueCore.Expire, TokensOk, LanesOk, CountsOk;
    FailedIff(s, id);
    CondemnEffect(s.q, id);
  }

  /** Stopping tells every task that was not told anything yet. */
  lemma StopTells(limits: Limits, steps: seq<Step>, id: TaskId)
    requires !HasStop(steps) && id in After(Start(limits), steps).q.tasks
    ensures var s := After(Start(limits), steps);
            var t := Apply(s, Stop);
            && t.log == s.log && t.q.tasks.Keys == s.q.tasks.Keys && HasNotice(t, id)
            && (!HasNotice(s, id) ==> id in t.owed && t.owed[id] == Failure.Stopped)
            && (id in s.owed ==> id in t.owed && t.owed[id] == s.owed[id])
  {
    RunKeeps(limits, steps);
    StoppedIff(limits, steps);
    hide After, StateInv, HasNotice, HasStop;
    StopStepTells(After(Start(limits), steps), id);
  }

  lemma StopStepTells(s: State, id: TaskId)
    requires StateInv(s) && !s.q.stopped && id in s.q.tasks
    ensures var t := StopStep(s);
            && t.log == s.log && t.q.tasks.Keys == s.q.tasks.Keys && HasNotice(t, id)
            && (!HasNotice(s, id) ==> id in t.owed && t.owed[id] == Failure.Stopped)
            && (id in s.owed ==> id in t.owed && t.owed[id] == s.owed[id])
  {
    hide WorkersOk, StartsOk, Inv, OutcomesOk, HasNotice, NoticesKept;
    FailedIff(s, id);
    StopJudgesAll(s);
    if id in s.owed {
      OwedHasNotice(s, id);
    }
    hide NoticesOk;
    if HasNotice(s, id) {
      NoticeStays(s, StopStep(s), id);
    }
  }

  lemma OwedHasNotice(s: State, id: TaskId)
    requires id in s.owed
    ensures HasNotice(s, id)
  {
  }

  // ---- counters ----

  ghost function CountIf(log: seq<Event>, p: Event -> bool): nat {
    if log == [] then 0 else CountIf(log[..|log| - 1], p) + if p(log[|log| - 1]) then 1 else 0
  }

  ghost function OwedFor(owed: map<TaskId, Failure>, reason: Failure): set<TaskId> {
    set id | id in owed && owed[id] == reason
  }

  /** Told of this failure, at submission or later. */
  ghost function Hears(reason: Failure): Event -> bool {
    (e: Event) => (e.Notified? || e.Rejected?) && e.reason == reason
  }

  ghost function Accepts(): Event -> bool {
    (e: Event) => e.Submitted?
  }

  /** Accepted, overloaded, expired and cancelled count what submitters were told and are still to be told. */
  ghost predicate CountersOk(s: State) {
    && s.q.counts.accepted == CountIf(s.log, Accepts())
    && s.q.counts.overloaded == CountIf(s.log, Hears(Overload))
    && s.q.counts.expired == CountIf(s.log, Hears(Deadline)) + |OwedFor(s.owed, Deadline)|
    && s.q.counts.cancelled == CountIf(s.log, Hears(Failure.Cancelled)) + |OwedFor(s.owed, Failure.Cancelled)|
  }

  lemma CountOne(log: seq<Event>, e: Event, p: Event -> bool)
    ensures CountIf(log + [e], p) == CountIf(log, p) + if p(e) then 1 else 0
  {
    assert (log + [e])[..|log|] == log;
  }

  lemma CountTwo(log: seq<Event>, e: Event, f: Event, p: Event -> bool)
    ensures CountIf(log + [e, f], p) == CountIf(log, p) + (if p(e) then 1 else 0) + if p(f) then 1 else 0
  {
    assert log + [e, f] == log + [e] + [f];
    CountOne(log, e, p);
    CountOne(log + [e], f, p);
  }

  lemma OweOne(owed: map<TaskId, Failure>, id: TaskId, reason: Failure, other: Failure)
    requires id !in owed
    ensures |OwedFor(owed[id := reason], other)| == |OwedFor(owed, other)| + if reason == other then 1 else 0
  {
    if reason == other {
      assert OwedFor(owed[id := reason], other) == OwedFor(owed, other) + {id};
    } else {
      assert OwedFor(owed[id := reason], other) == OwedFor(owed, other);
    }
  }

  lemma OweLess(owed: map<TaskId, Failure>, id: TaskId, other: Failure)
    requires id in owed
    ensures |OwedFor(owed - {id}, other)| == |OwedFor(owed, other)| - if owed[id] == other then 1 else 0
  {
    var rest := owed - {id};
    assert rest[id := owed[id]] == owed;
    OweOne(rest, id, owed[id], other);
  }

  lemma OweStops(s: State, other: Failure)
    requires NoticesOk(s) && !s.q.stopped && !other.Stopped?
    ensures OwedFor(StopStep(s).owed, other) == OwedFor(s.owed, other)
  {
    assert forall id | id in s.q.tasks && !s.q.tasks[id].failed :: id !in s.owed;
  }

  /** How a step moves the four counters. */
  lemma CountersMove(s: State, step: Step)
    requires StateInv(s) && Possible(s, step)
    ensures var c, d := s.q.counts, Effect(s, step).q.counts;
            match step
            case Submit(work, now) =>
              var r := QueueCore.Submit(s.q, work, now).1;
              && d.accepted == c.accepted + (if r.Admitted? then 1 else 0) && d.cancelled == c.cancelled
              && d.expired == c.expired + (if r == Refused(Deadline) then 1 else 0)
              && d.overloaded == c.overloaded + (if r == Refused(Overload) then 1 else 0)
            case Take(_, now) =>
              var taken := QueueCore.Take(s.q, now).1;
              && d.accepted == c.accepted && d.overloaded == c.overloaded && d.cancelled == c.cancelled
              && d.expired == c.expired + if taken.Some? && taken.value.late then 1 else 0
            case Expire(id, _) =>
              && d.accepted == c.accepted && d.overloaded == c.overloaded && d.cancelled == c.cancelled
              && d.expired == c.expired + if s.q.tasks[id].failed then 0 else 1
            case Cancel(id) =>
              && d.accepted == c.accepted && d.overloaded == c.overloaded && d.expired == c.expired
              && d.cancelled == c.cancelled + if Cancellable(s.q, id) then 1 else 0
            case _ =>
              d.accepted == c.accepted && d.overloaded == c.overloaded && d.expired == c.expired && d.cancelled == c.cancelled
  {
    hide StateInv;
  }

  lemma SubmitCountsRight(s: State, work: Work, now: int)
    requires StateInv(s) && CountersOk(s)
    ensures CountersOk(SubmitStep(s, work, now))
  {
    CountersMove(s, Submit(work, now));
    hide StateInv, QueueCore.Submit, CountIf;
    var t := SubmitStep(s, work, now);
    var e := t.log[|s.log|];
    assert t.log == s.log + [e];
    CountOne(s.log, e, Accepts());
    CountOne(s.log, e, Hears(Overload));
    CountOne(s.log, e, Hears(Deadline));
    CountOne(s.log, e, Hears(Failure.Cancelled));
  }

  ghost predicate SameCounters(c: Counts, d: Counts) {
    d.accepted == c.accepted && d.overloaded == c.overloaded && d.expired == c.expired && d.cancelled == c.cancelled
  }

  /** An event that none of the counters is about. */
  lemma OtherCountsRight(s: State, t: State, e: Event)
    requires CountersOk(s) && (e.Started? || e.Returned? || (e.Notified? && e.reason.Exception?))
    requires t.log == s.log + [e] && t.owed == s.owed && SameCounters(s.q.counts, t.q.counts)
    ensures CountersOk(t)
  {
    hide CountIf, OwedFor;
    CountOne(s.log, e, Accepts());
    CountOne(s.log, e, Hears(Overload));
    CountOne(s.log, e, Hears(Deadline));
    CountOne(s.log, e, Hears(Failure.Cancelled));
  }

  /** One more notice is owed. */
  lemma OwedCountsRight(s: State, t: State, id: TaskId, reason: Failure)
    requires CountersOk(s) && id !in s.owed && t.log == s.log && t.owed == s.owed[id := reason]
    requires reason.Deadline? || reason.Cancelled?
    requires var c, d := s.q.counts, t.q.counts;
             && d.accepted == c.accepted && d.overloaded == c.overloaded
             && d.expired == c.expired + (if reason.Deadline? then 1 else 0)
             && d.cancelled == c.cancelled + (if reason.Cancelled? then 1 else 0)
    ensures CountersOk(t)
  {
    hide CountIf, OwedFor;
    OweOne(s.owed, id, reason, Deadline);
    OweOne(s.owed, id, reason, Failure.Cancelled);
  }

  lemma NotOwedYet(s: State, id: TaskId)
    requires NoticesOk(s) && id in s.q.tasks && !s.q.tasks[id].failed
    ensures id !in s.owed
  {
  }

  lemma TakeCountsRight(s: State, w: nat, now: int)
    requires StateInv(s) && CountersOk(s) && Possible(s, Take(w, now))
    ensures CountersOk(TakeStep(s, w, now))
  {
    hide QueueCore.Take, CountersOk, WorkersOk, StartsOk, OutcomesOk, NoticesOk, CountsOk, TokensOk, LanesOk;
    CountersMove(s, Take(w, now));
    TakeEffect(s.q, now);
    var t, taken := TakeStep(s, w, now), QueueCore.Take(s.q, now).1;
    if taken.Some? {
      var id := taken.value.id;
      assert TaskOk(s.q, id);
      NotOwedYet(s, id);
      if taken.value.late {
        OwedCountsRight(s, t, id, Deadline);
      } else {
        OtherCountsRight(s, t, Started(id, s.q.runnable[0], now));
      }
    } else {
      CountersSame(s, t);
    }
  }

  lemma CountersSame(s: State, t: State)
    requires CountersOk(s) && t.log == s.log && t.owed == s.owed && SameCounters(s.q.counts, t.q.counts)
    ensures CountersOk(t)
  {
  }

  /** A notice that was owed has been made. */
  lemma MadeCountsRight(s: State, t: State, id: TaskId)
    requires CountersOk(s) && id in s.owed && t.owed == s.owed - {id} && t.q.counts == s.q.counts
    requires t.log == s.log + [Notified(id, s.owed[id])] && !s.owed[id].Overload?
    ensures CountersOk(t)
  {
    hide CountIf, OwedFor;
    var e := Notified(id, s.owed[id]);
    OweLess(s.owed, id, Deadline);
    OweLess(s.owed, id, Failure.Cancelled);
    CountOne(s.log, e, Accepts());
    CountOne(s.log, e, Hears(Overload));
    CountOne(s.log, e, Hears(Deadline));
    CountOne(s.log, e, Hears(Failure.Cancelled));
  }

  lemma ReturnCountsRight(s: State, w: nat, threw: bool)
    requires StateInv(s) && CountersOk(s) && Possible(s, Return(w, threw))
    ensures CountersOk(ReturnStep(s, w, threw))
  {
    hide CountersOk, Inv, WorkersOk, StartsOk, OutcomesOk;
    var t, id := ReturnStep(s, w, threw), s.workers[w].id;
    if s.workers[w].late {
      LateIsDeadline(s, w);
      MadeCountsRight(s, t, id);
    } else {
      var u := t.(log := s.log + [Returned(id)]);
      OtherCountsRight(s, u, Returned(id));
      if threw {
        assert t.log == u.log + [Notified(id, Exception)];
        OtherCountsRight(u, t, Notified(id, Exception));
      }
    }
  }

  lemma OweCountsRight(s: State, step: Step)
    requires StateInv(s) && CountersOk(s) && Possible(s, step) && (step.Expire? || step.Cancel?)
    ensures CountersOk(Effect(s, step))
  {
    hide QueueCore.Expire, QueueCore.Cancel, CountersOk, WorkersOk, StartsOk, OutcomesOk, NoticesOk, Inv;
    CountersMove(s, step);
    if step.id in s.q.tasks && !s.q.tasks[step.id].failed {
      NotOwedYet(s, step.id);
      OwedCountsRight(s, Effect(s, step), step.id, if step.Expire? then Deadline else Failure.Cancelled);
    } else {
      CountersSame(s, Effect(s, step));
    }
  }

  /** Nobody is owed an overload: that is told at once. */
  ghost predicate NoOverloadOwed(s: State) {
    forall id | id in s.owed :: !s.owed[id].Overload?
  }

  lemma StepNeverOwesOverload(s: State, step: Step)
    requires NoOverloadOwed(s)
    ensures NoOverloadOwed(Apply(s, step))
  {
    hide QueueCore.Submit, QueueCore.Take, Finish, QueueCore.Expire, QueueCore.Cancel, QueueCore.Stop, QueueCore.Drain;
  }

  lemma StopCountsRight(s: State)
    requires StateInv(s) && CountersOk(s)
    ensures CountersOk(StopStep(s))
  {
    if !s.q.stopped {
      OweStops(s, Deadline);
      OweStops(s, Failure.Cancelled);
    }
    hide StateInv, CountIf, OwedFor;
  }

  lemma RestCountsRight(s: State, step: Step)
    requires StateInv(s) && CountersOk(s) && NoOverloadOwed(s) && Possible(s, step)
    requires step.Notify? || step.Complete? || step.Exit? || step.Drain?
    ensures CountersOk(Effect(s, step))
  {
    hide StateInv, CountersOk, Finish, QueueCore.Drain;
    if step.Notify? {
      MadeCountsRight(s, Effect(s, step), step.id);
    } else {
      CountersMove(s, step);
      CountersSame(s, Effect(s, step));
    }
  }

  lemma StepCountsRight(s: State, step: Step)
    requires StateInv(s) && CountersOk(s) && NoOverloadOwed(s)
    ensures CountersOk(Apply(s, step))
  {
    hide StateInv, CountersOk, NoOverloadOwed, SubmitStep, TakeStep, ReturnStep, StopStep;
    if Possible(s, step) {
      match step
      case Submit(work, now) => SubmitCountsRight(s, work, now);
      case Take(w, now) => TakeCountsRight(s, w, now);
      case Return(w, threw) => ReturnCountsRight(s, w, threw);
      case Expire(_, _) => OweCountsRight(s, step);
      case Cancel(_) => OweCountsRight(s, step);
      case Stop => StopCountsRight(s);
      case _ => RestCountsRight(s, step);
    }
  }

  /** In every run the published counters are the numbers of submitters accepted, turned away, expired and cancelled. */
  lemma {:induction false} CountersTell(limits: Limits, steps: seq<Step>)
    ensures CountersOk(After(Start(limits), steps)) && NoOverloadOwed(After(Start(limits), steps))
    decreases |steps|
  {
    if steps != [] {
      hide StateInv, CountersOk, NoOverloadOwed, Apply;
      CountersTell(limits, steps[..|steps| - 1]);
      RunKeeps(limits, steps[..|steps| - 1]);
      StepNeverOwesOverload(After(Start(limits), steps[..|steps| - 1]), steps[|steps| - 1]);
      StepCountsRight(After(Start(limits), steps[..|steps| - 1]), steps[|steps| - 1]);
    }
  }
}
