/**
 The operation queue as it is laid out in memory, with its deadline index kept in time order.  Each method is
 one lock-held region; it keeps the invariant and does what QueueCore says.
 */
module OperationQueueing {
  import opened Basics
  import opened QueueCore
  import opened QueueInvariant

  datatype Due = Due(deadline: int, id: TaskId)

  ghost predicate InOrder(index: seq<Due>) {
    forall i, j | 0 <= i < j < |index| :: index[i].deadline <= index[j].deadline && index[i].id != index[j].id
  }

  /** The index lists exactly the timed tasks, earliest deadline first. */
  ghost predicate Indexed(tasks: map<TaskId, Task>, index: seq<Due>) {
    && InOrder(index)
    && (forall due | due in index :: due.id in tasks && tasks[due.id].timed && tasks[due.id].deadline == due.deadline)
    && (forall id | id in tasks && tasks[id].timed :: Due(tasks[id].deadline, id) in index)
  }

  /** Inserts behind every entry that is not later. */
  method Insert(index: seq<Due>, due: Due) returns (r: seq<Due>)
    requires InOrder(index) && forall d | d in index :: d.id != due.id
    ensures InOrder(r) && forall d :: d in r <==> d in index || d == due
  {
    var k := |index|;
    while 0 < k && index[k - 1].deadline > due.deadline
      invariant 0 <= k <= |index|
      invariant forall i | k <= i < |index| :: index[i].deadline > due.deadline
    {
      k := k - 1;
    }
    r := index[..k] + [due] + index[k..];
    InsertedInOrder(index, k, due);
    InsertedMembers(index, k, due);
  }

  lemma InsertedInOrder(index: seq<Due>, k: nat, due: Due)
    requires k <= |index| && InOrder(index) && forall d | d in index :: d.id != due.id
    requires k > 0 ==> index[k - 1].deadline <= due.deadline
    requires forall i | k <= i < |index| :: index[i].deadline > due.deadline
    ensures InOrder(index[..k] + [due] + index[k..])
  {
    var r := index[..k] + [due] + index[k..];
    assert forall i | 0 <= i < |index| :: index[i] in index;
    forall i, j | 0 <= i < j < |r|
      ensures r[i].deadline <= r[j].deadline && r[i].id != r[j].id
    {
      assert i < k ==> r[i] == index[i];
      assert i > k ==> r[i] == index[i - 1];
      assert j < k ==> r[j] == index[j];
      assert j > k ==> r[j] == index[j - 1];
    }
  }

  lemma InsertedMembers(index: seq<Due>, k: nat, due: Due)
    requires k <= |index|
    ensures forall d :: d in index[..k] + [due] + index[k..] <==> d in index || d == due
  {
    assert index == index[..k] + index[k..];
  }

  method Erase(index: seq<Due>, id: TaskId) returns (r: seq<Due>)
    requires InOrder(index)
    ensures InOrder(r) && forall d :: d in r <==> d in index && d.id != id
  {
    var k := 0;
    while k < |index| && index[k].id != id
      invariant 0 <= k <= |index|
      invariant forall i | 0 <= i < k :: index[i].id != id
    {
      k := k + 1;
    }
    if k == |index| {
      return index;
    }
    r := index[..k] + index[k + 1..];
    forall d
      ensures d in r <==> d in index && d.id != id
    {
      if d in index && d.id != id {
        var i :| 0 <= i < |index| && index[i] == d;
        assert if i < k then r[i] == d else r[i - 1] == d;
      }
    }
  }

  class OperationQueue {
    const limits: Limits
    var lanes: map<Key, Lane>
    var tasks: map<TaskId, Task>
    var deadlines: seq<Due>
    var runnable: seq<Key>
    var stopped: bool
    var nextId: nat
    var counts: Counts

    ghost function View(): Queue
      reads this
    {
      Queue(limits, lanes, tasks, runnable, stopped, nextId, counts)
    }

    ghost predicate Valid()
      reads this
    {
      Inv(View()) && Indexed(tasks, deadlines)
    }

    constructor (limits: Limits)
      requires 0 < limits.workers && 0 < limits.queuedPerKey && MIN_CHARGE <= limits.residentBytes
      ensures Valid() && View() == Fresh(limits)
    {
      this.limits := limits;
      lanes, tasks, deadlines, runnable := map[], map[], [], [];
      stopped, nextId := false, 0;
      counts := Counts(0, 0, 0, 0, 0, 0, 0, 0, 0);
    }

    /** Gives the lane a token if it has work and none is running or waiting. */
    method Ready(key: Key)
      requires key in lanes
      modifies this`lanes, this`runnable
      ensures View() == MakeReady(old(View()), key)
    {
      var lane := lanes[key];
      if !lane.active && !lane.ready && lane.queue != [] {
        runnable := runnable + [key];
        lanes := lanes[key := lane.(ready := true)];
      }
    }

    method ReleaseQueued(id: TaskId)
      requires id in tasks && tasks[id].key in lanes
      modifies this`lanes, this`tasks, this`counts
      ensures View() == Release(old(View()), id)
    {
      var task := tasks[id];
      var lane := lanes[task.key].(queue := Without(lanes[task.key].queue, id));
      lanes := lanes[task.key := lane];
      counts := counts.(queued := counts.queued - 1, residentBytes := counts.residentBytes - task.charge);
      tasks := tasks - {id};
      if !lane.active && !lane.ready && lane.queue == [] {
        lanes := lanes - {task.key};
        assert lanes == old(lanes) - {task.key};
      }
    }

    method Submit(work: Work, now: int) returns (r: Submission)
      requires Valid()
      modifies this
      ensures Valid()
      ensures (View(), r) == QueueCore.Submit(old(View()), work, now)
    {
      hide Inv, Indexed;
      SubmitKeepsInv(View(), work, now);
      if stopped {
        return Refused(Stopped);
      }
      if work.deadline <= now {
        counts := counts.(expired := counts.expired + 1);
        return Refused(Deadline);
      }
      var lane := if work.key in lanes then lanes[work.key] else Lane(false, false, []);
      var charge := Charge(work);
      if |lane.queue| < limits.queuedPerKey && charge <= limits.residentBytes - counts.residentBytes {
        NewEntryIsFresh(View(), deadlines);
        nextId := nextId + 1;
        var id := nextId;
        deadlines := Insert(deadlines, Due(work.deadline, id));
        IndexAdds(tasks, old(deadlines), deadlines, id, Task(work.key, charge, work.deadline, false, false, true));
        lanes := lanes[work.key := lane.(queue := lane.queue + [id])];
        tasks := tasks[id := Task(work.key, charge, work.deadline, false, false, true)];
        counts := counts.(accepted := counts.accepted + 1, queued := counts.queued + 1,
                          residentBytes := counts.residentBytes + charge,
                          peakBytes := Max(counts.peakBytes, counts.residentBytes + charge));
        Ready(work.key);
        return Admitted(id);
      }
      counts := counts.(overloaded := counts.overloaded + 1);
      r := Refused(Overload);
    }

    /** The lock-held start of a worker's round: takes a token and, if its lane has work, the oldest task. */
    method Take(now: int) returns (r: Option<Taken>)
      requires Valid() && runnable != [] && !stopped
      modifies this
      ensures Valid()
      ensures (View(), r) == QueueCore.Take(old(View()), now)
      ensures r.Some? <==> old(runnable[0] in lanes && lanes[runnable[0]].queue != [])
      ensures r.Some? ==>
                && r.value.id == old(lanes[runnable[0]].queue[0]) && r.value.id in old(tasks)
                && (r.value.late <==> old(tasks)[r.value.id].deadline <= now)
    {
      hide Inv, Indexed;
      TakeKeepsInv(View(), now);
      FrontIsKnown(View());
      var key := runnable[0];
      runnable := runnable[1..];
      var lane := lanes[key];
      if lane.queue == [] {
        lanes := if lane.active then lanes[key := lane.(ready := false)] else lanes - {key};
        return None;
      }
      var id := lane.queue[0];
      var late := tasks[id].deadline <= now;
      IndexKeeps(tasks, deadlines, id, tasks[id].(active := true, failed := tasks[id].failed || late));
      lanes := lanes[key := Lane(true, false, lane.queue[1..])];
      tasks := tasks[id := tasks[id].(active := true, failed := tasks[id].failed || late)];
      counts := counts.(queued := counts.queued - 1, running := counts.running + 1);
      if late {
        counts := counts.(expired := counts.expired + 1);
      }
      r := Some(Taken(id, late));
    }

    /** The lock-held end of a worker's round. */
    method Complete(id: TaskId)
      requires Valid() && id in tasks && tasks[id].active
      modifies this
      ensures Valid()
      ensures old(tasks[id].key in lanes) && View() == Finish(old(View()), id)
    {
      hide Inv, Indexed;
      FinishKeepsInv(View(), id);
      InOrderOf(tasks, deadlines);
      var task := tasks[id];
      deadlines := Erase(deadlines, id);
      IndexDrops(tasks, old(deadlines), deadlines, id);
      tasks := tasks - {id};
      counts := counts.(running := counts.running - 1, residentBytes := counts.residentBytes - task.charge,
                        completed := counts.completed + 1);
      var lane := lanes[task.key].(active := false);
      lanes := lanes[task.key := lane];
      if lane.queue == [] {
        lanes := lanes - {task.key};
        assert lanes == old(lanes) - {task.key};
      } else {
        Ready(task.key);
      }
    }

    /** One round of the timer on the earliest deadline; says whether its task must be told. */
    method Expire(now: int) returns (told: Option<TaskId>)
      requires Valid() && deadlines != [] && deadlines[0].deadline <= now && !stopped
      modifies this
      ensures Valid()
      ensures var id := old(deadlines)[0].id;
              && Earliest(old(View()), id) && old(View()).tasks[id].key in old(lanes)
              && View() == QueueCore.Expire(old(View()), id)
              && told == if old(tasks)[id].failed then None else Some(id)
    {
      hide Inv, Indexed;
      var id := deadlines[0].id;
      FirstIsEarliest(View(), deadlines);
      ExpireKeepsInv(View(), id);
      var after := Erase(deadlines, id);
      if tasks[id].failed {
        IndexUntimes(tasks, deadlines, after, id, tasks[id].(timed := false));
        deadlines := after;
        tasks := tasks[id := tasks[id].(timed := false)];
        return None;
      }
      counts := counts.(expired := counts.expired + 1);
      CondemnTask(id, after);
      told := Some(id);
    }

    /** Marks the task failed and untimed; if it still waits it leaves its lane. */
    method CondemnTask(id: TaskId, after: seq<Due>)
      requires Indexed(tasks, deadlines) && id in tasks && tasks[id].key in lanes
      requires InOrder(after) && forall d :: d in after <==> d in deadlines && d.id != id
      modifies this
      ensures Indexed(tasks, deadlines) && View() == Condemn(old(View()), id)
    {
      hide Indexed;
      ghost var was := tasks;
      tasks := tasks[id := tasks[id].(failed := true, timed := false)];
      IndexUntimes(was, deadlines, after, id, tasks[id]);
      deadlines := after;
      if !tasks[id].active {
        IndexDrops(tasks, deadlines, deadlines, id);
        ReleaseQueued(id);
      }
    }

    /** Cancels a task that has not failed; says whether it must be told. */
    method Cancel(id: TaskId) returns (told: bool)
      requires Valid()
      modifies this
      ensures Valid()
      ensures told == Cancellable(old(View()), id)
      ensures told ==> old(View()).tasks[id].key in old(lanes) && View() == QueueCore.Cancel(old(View()), id)
      ensures !told ==> View() == old(View())
    {
      hide Inv, Indexed;
      if id !in tasks || tasks[id].failed {
        return false;
      }
      CancelKeepsInv(View(), id);
      InOrderOf(tasks, deadlines);
      counts := counts.(cancelled := counts.cancelled + 1);
      var after := Erase(deadlines, id);
      CondemnTask(id, after);
      told := true;
    }

    /** Stops the queue and collects the tasks that must be told. */
    method Stop() returns (told: set<TaskId>)
      requires Valid()
      modifies this
      ensures Valid()
      ensures old(stopped) ==> told == {} && View() == old(View())
      ensures !old(stopped) ==> View() == QueueCore.Stop(old(View()))
      ensures !old(stopped) ==> forall id :: id in told <==> id in old(tasks) && !old(tasks)[id].failed
    {
      hide Inv, Indexed;
      told := {};
      if stopped {
        return;
      }
      StopKeepsInv(View());
      stopped := true;
      told := FailAll();
      assert tasks == QueueCore.Stop(old(View())).tasks;
    }

    /** Marks every task failed; those that were not marked before must be told. */
    method FailAll() returns (told: set<TaskId>)
      requires Indexed(tasks, deadlines)
      modifies this`tasks
      ensures Indexed(tasks, deadlines) && tasks.Keys == old(tasks.Keys)
      ensures forall id | id in tasks :: tasks[id] == old(tasks)[id].(failed := true)
      ensures forall id :: id in told <==> id in old(tasks) && !old(tasks)[id].failed
    {
      hide Indexed;
      told := {};
      var rest := tasks.Keys;
      while rest != {}
        invariant rest <= old(tasks.Keys) && tasks.Keys == old(tasks.Keys) && Indexed(tasks, deadlines)
        invariant forall id | id in tasks :: tasks[id] == if id in rest then old(tasks)[id] else old(tasks)[id].(failed := true)
        invariant forall id :: id in told <==> id in old(tasks) && id !in rest && !old(tasks)[id].failed
        decreases |rest|
      {
        var id :| id in rest;
        IndexKeeps(tasks, deadlines, id, tasks[id].(failed := true));
        if !tasks[id].failed {
          told := told + {id};
        }
        tasks := tasks[id := tasks[id].(failed := true)];
        rest := rest - {id};
      }
    }

    method Drain()
      requires Valid()
      modifies this
      ensures Valid() && View() == QueueCore.Drain(old(View()))
    {
      hide Inv;
      DrainKeepsInv(View());
      tasks, lanes, deadlines, runnable := map[], map[], [], [];
      counts := counts.(queued := 0, running := 0, residentBytes := 0);
    }
  }

  // ---- the deadline index ----

  lemma InOrderOf(tasks: map<TaskId, Task>, index: seq<Due>)
    requires Indexed(tasks, index)
    ensures InOrder(index)
  {
  }

  lemma NewEntryIsFresh(q: Queue, index: seq<Due>)
    requires Inv(q) && Indexed(q.tasks, index)
    ensures InOrder(index) && (forall d | d in index :: d.id != q.nextId + 1) && q.nextId + 1 !in q.tasks
  {
    IdsBounded(q);
  }

  lemma FrontIsKnown(q: Queue)
    requires Inv(q) && q.runnable != []
    ensures q.runnable[0] in q.lanes
    ensures q.lanes[q.runnable[0]].queue != [] ==> q.lanes[q.runnable[0]].queue[0] in q.tasks
  {
    FrontLane(q);
  }

  lemma FirstIsEarliest(q: Queue, index: seq<Due>)
    requires Inv(q) && Indexed(q.tasks, index) && index != []
    ensures InOrder(index) && Earliest(q, index[0].id) && q.tasks[index[0].id].key in q.lanes
  {
    assert index[0] in index;
    assert TaskOk(q, index[0].id);
    forall j | j in q.tasks && q.tasks[j].timed
      ensures index[0].deadline <= q.tasks[j].deadline
    {
      var i :| 0 <= i < |index| && index[i] == Due(q.tasks[j].deadline, j);
    }
  }

  lemma IndexKeeps(tasks: map<TaskId, Task>, index: seq<Due>, id: TaskId, task: Task)
    requires Indexed(tasks, index) && id in tasks
    requires task.timed == tasks[id].timed && task.deadline == tasks[id].deadline
    ensures Indexed(tasks[id := task], index)
  {
  }

  lemma IndexAdds(tasks: map<TaskId, Task>, index: seq<Due>, more: seq<Due>, id: TaskId, task: Task)
    requires Indexed(tasks, index) && id !in tasks && task.timed
    requires InOrder(more) && forall d :: d in more <==> d in index || d == Due(task.deadline, id)
    ensures Indexed(tasks[id := task], more)
  {
  }

  lemma IndexUntimes(tasks: map<TaskId, Task>, index: seq<Due>, less: seq<Due>, id: TaskId, task: Task)
    requires Indexed(tasks, index) && id in tasks && !task.timed
    requires InOrder(less) && forall d :: d in less <==> d in index && d.id != id
    ensures Indexed(tasks[id := task], less)
  {
  }

  lemma IndexDrops(tasks: map<TaskId, Task>, index: seq<Due>, less: seq<Due>, id: TaskId)
    requires Indexed(tasks, index)
    requires (InOrder(less) && forall d :: d in less <==> d in index && d.id != id)
             || (less == index && id in tasks && !tasks[id].timed)
    ensures Indexed(tasks - {id}, less)
  {
  }
}
