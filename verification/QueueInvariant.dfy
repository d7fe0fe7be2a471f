/** Submission, dispatch, completion, expiry, cancellation and shutdown all keep the queue's invariant. */
module QueueInvariant {
  import opened Basics
  import opened QueueCore

  lemma {:induction false} WithoutOk(ids: seq<TaskId>, id: TaskId)
    requires Ascending(ids)
    ensures Ascending(Without(ids, id))
    ensures forall x :: x in Without(ids, id) <==> x in ids && x != id
    ensures |Without(ids, id)| <= |ids|
  {
    if ids != [] {
      var rest := ids[1..];
      assert Ascending(rest);
      assert forall x | x in rest :: ids[0] < x;
      assert forall x :: x in ids <==> x == ids[0] || x in rest;
      if ids[0] != id {
        WithoutOk(rest, id);
        var kept := Without(rest, id);
        assert forall i | 0 <= i < |kept| :: kept[i] in kept;
        assert Without(ids, id) == [ids[0]] + kept;
      }
    }
  }

  lemma MakeReadyKeepsTokens(q: Queue, key: Key)
    requires key in q.lanes && Distinct(q.runnable)
    requires forall k | k in q.lanes :: k != key ==> q.lanes[k].active != q.lanes[k].ready
    requires !(q.lanes[key].active && q.lanes[key].ready)
    requires q.lanes[key].active || q.lanes[key].ready || q.lanes[key].queue != []
    requires forall k :: k in q.runnable <==> k in q.lanes && q.lanes[k].ready
    ensures TokensOk(MakeReady(q, key))
  {
  }

  /** Only the weight of one task differs. */
  lemma CountsAfter(q: Queue, r: Queue, id: TaskId)
    requires CountsOk(q) && 1 <= id <= r.nextId && q.nextId <= r.nextId
    requires forall i | i in q.tasks :: i <= q.nextId
    requires forall i | i != id :: i in q.tasks <==> i in r.tasks
    requires forall i | i != id && i in q.tasks :: q.tasks[i].charge == r.tasks[i].charge && q.tasks[i].active == r.tasks[i].active
    requires r.nextId <= q.nextId + 1
    ensures Total(Bytes, r.tasks, r.nextId) == q.counts.residentBytes - WeightAt(Bytes, q.tasks, id) + WeightAt(Bytes, r.tasks, id)
    ensures Total(Waiting, r.tasks, r.nextId) == q.counts.queued - WeightAt(Waiting, q.tasks, id) + WeightAt(Waiting, r.tasks, id)
    ensures Total(Active, r.tasks, r.nextId) == q.counts.running - WeightAt(Active, q.tasks, id) + WeightAt(Active, r.tasks, id)
  {
    TotalChange(Bytes, q.tasks, r.tasks, id, r.nextId);
    TotalChange(Waiting, q.tasks, r.tasks, id, r.nextId);
    TotalChange(Active, q.tasks, r.tasks, id, r.nextId);
  }

  lemma IdsBounded(q: Queue)
    requires TasksOk(q)
    ensures forall i | i in q.tasks :: 1 <= i <= q.nextId
  {
    forall i | i in q.tasks
      ensures 1 <= i <= q.nextId
    {
      assert TaskOk(q, i);
    }
  }

  lemma QueuedBounded(q: Queue, key: Key)
    requires LanesOk(q) && TasksOk(q) && key in q.lanes
    ensures forall i | 0 <= i < |q.lanes[key].queue| :: q.lanes[key].queue[i] <= q.nextId
  {
    IdsBounded(q);
    forall i | 0 <= i < |q.lanes[key].queue|
      ensures q.lanes[key].queue[i] <= q.nextId
    {
      assert q.lanes[key].queue[i] in q.lanes[key].queue;
      assert q.lanes[key].queue[i] in q.tasks;
    }
  }

  // ---- submission ----

  lemma AdmitLanes(q: Queue, work: Work)
    requires Inv(q) && Fits(q, work)
    ensures LanesOk(Admit(q, work))
  {
    hide CountsOk, TokensOk;
    var lane, r, id := LaneOf(q, work.key), Admit(q, work), q.nextId + 1;
    if work.key in q.lanes {
      QueuedBounded(q, work.key);
    }
    IdsBounded(q);
    assert r.lanes[work.key].queue == lane.queue + [id];
    assert forall k | k in q.lanes && k != work.key :: r.lanes[k].queue == q.lanes[k].queue;
    forall k, x | k in r.lanes && x in r.lanes[k].queue
      ensures x in r.tasks && r.tasks[x].key == k && !r.tasks[x].active
    {
      if k in q.lanes && x in q.lanes[k].queue {
        assert x in q.tasks && q.tasks[x].key == k;
        assert r.tasks[x] == q.tasks[x];
      } else {
        assert k == work.key && x == id;
      }
    }
  }

  lemma AdmitTokens(q: Queue, work: Work)
    requires TokensOk(q)
    ensures TokensOk(Admit(q, work))
  {
    var id := q.nextId + 1;
    var lane := LaneOf(q, work.key);
    assert lane.queue + [id] != [];
  }

  lemma AdmitTasks(q: Queue, work: Work)
    requires LanesOk(q) && TasksOk(q) && !q.stopped
    ensures TasksOk(Admit(q, work))
  {
    var lane, r, id := LaneOf(q, work.key), Admit(q, work), q.nextId + 1;
    IdsBounded(q);
    assert r.lanes[work.key].queue == lane.queue + [id];
    assert id in r.lanes[work.key].queue;
    forall x | x in r.tasks
      ensures TaskOk(r, x)
    {
      if x != id {
        assert TaskOk(q, x);
      }
    }
  }

  lemma AdmitCounts(q: Queue, work: Work)
    requires TasksOk(q) && CountsOk(q) && Fits(q, work)
    ensures CountsOk(Admit(q, work))
  {
    IdsBounded(q);
    CountsAfter(q, Admit(q, work), q.nextId + 1);
  }

  lemma SubmitKeepsInv(q: Queue, work: Work, now: int)
    requires Inv(q)
    ensures Inv(Submit(q, work, now).0)
  {
    if !q.stopped && work.deadline > now && Fits(q, work) {
      AdmitLanes(q, work);
      AdmitTokens(q, work);
      AdmitTasks(q, work);
      AdmitCounts(q, work);
    } else {
      CounterKeepsInv(q, Submit(q, work, now).0);
    }
  }

  /** Event counters play no part in the invariant. */
  lemma CounterKeepsInv(q: Queue, r: Queue)
    requires Inv(q)
    requires r == q.(counts := q.counts.(expired := r.counts.expired, overloaded := r.counts.overloaded,
                                         cancelled := r.counts.cancelled))
    ensures Inv(r)
  {
    forall id | id in r.tasks
      ensures TaskOk(r, id)
    {
      assert TaskOk(q, id);
    }
  }

  // ---- dispatch ----

  /** The token at the front belongs to a waiting lane, and the lane's first task exists. */
  lemma FrontLane(q: Queue)
    requires TokensOk(q) && LanesOk(q) && q.runnable != []
    ensures var key := q.runnable[0];
            && key in q.lanes && q.lanes[key].ready && !q.lanes[key].active
            && (q.lanes[key].queue != [] ==>
                  q.lanes[key].queue[0] in q.tasks && q.tasks[q.lanes[key].queue[0]].key == key
                  && !q.tasks[q.lanes[key].queue[0]].active)
  {
    var key := q.runnable[0];
    assert key in q.runnable;
    if q.lanes[key].queue != [] {
      assert q.lanes[key].queue[0] in q.lanes[key].queue;
    }
  }

  lemma TakeTokens(q: Queue, now: int)
    requires TokensOk(q) && LanesOk(q) && q.runnable != []
    ensures TokensOk(Take(q, now).0)
  {
    FrontLane(q);
    var r, key := Take(q, now).0, q.runnable[0];
    assert forall i | 1 <= i < |q.runnable| :: q.runnable[i] != key;
    assert key !in q.runnable[1..];
    assert forall k :: k in q.runnable <==> k == key || k in q.runnable[1..];
  }

  lemma TakeLanes(q: Queue, now: int)
    requires TokensOk(q) && LanesOk(q) && q.runnable != []
    ensures LanesOk(Take(q, now).0)
  {
    FrontLane(q);
    var r, key := Take(q, now).0, q.runnable[0];
    if q.lanes[key].queue != [] {
      var waiting := q.lanes[key].queue;
      assert r.lanes[key].queue == waiting[1..];
      forall k, x | k in r.lanes && x in r.lanes[k].queue
        ensures x in r.tasks && r.tasks[x].key == k && !r.tasks[x].active
      {
        assert x in q.lanes[k].queue;
        assert x != waiting[0];
      }
    }
  }

  lemma TakeTasks(q: Queue, now: int)
    requires TokensOk(q) && LanesOk(q) && TasksOk(q) && q.runnable != []
    ensures TasksOk(Take(q, now).0)
  {
    FrontLane(q);
    var r, key := Take(q, now).0, q.runnable[0];
    forall x | x in r.tasks
      ensures TaskOk(r, x)
    {
      assert TaskOk(q, x);
    }
    forall a, b | a in r.tasks && b in r.tasks && r.tasks[a].active && r.tasks[b].active && r.tasks[a].key == r.tasks[b].key
      ensures a == b
    {
      assert TaskOk(q, a) && TaskOk(q, b);
    }
  }

  lemma TakeCounts(q: Queue, now: int)
    requires TokensOk(q) && LanesOk(q) && TasksOk(q) && CountsOk(q) && q.runnable != []
    ensures CountsOk(Take(q, now).0)
  {
    FrontLane(q);
    IdsBounded(q);
    var key := q.runnable[0];
    if q.lanes[key].queue != [] {
      CountsAfter(q, Take(q, now).0, q.lanes[key].queue[0]);
    }
  }

  lemma TakeKeepsInv(q: Queue, now: int)
    requires Inv(q) && q.runnable != []
    ensures Inv(Take(q, now).0)
  {
    TakeTokens(q, now);
    TakeLanes(q, now);
    TakeTasks(q, now);
    TakeCounts(q, now);
  }

  // ---- completion ----

  lemma FinishTokens(q: Queue, id: TaskId)
    requires TokensOk(q) && TasksOk(q) && id in q.tasks && q.tasks[id].active
    ensures TaskOk(q, id) && TokensOk(Finish(q, id))
  {
    assert TaskOk(q, id);
    var key := q.tasks[id].key;
    var lane := q.lanes[key].(active := false);
    if lane.queue != [] {
      MakeReadyKeepsTokens(q.(lanes := q.lanes[key := lane]), key);
    }
  }

  lemma FinishLanes(q: Queue, id: TaskId)
    requires LanesOk(q) && TasksOk(q) && id in q.tasks && q.tasks[id].active
    ensures TaskOk(q, id) && LanesOk(Finish(q, id))
  {
    assert TaskOk(q, id);
    var r := Finish(q, id);
    assert forall k | k in r.lanes :: k in q.lanes && r.lanes[k].queue == q.lanes[k].queue;
    assert r.tasks == q.tasks - {id} && r.limits == q.limits;
    hide Finish, TasksOk, TaskOk;
  }

  lemma FinishTasks(q: Queue, id: TaskId)
    requires LanesOk(q) && TasksOk(q) && id in q.tasks && q.tasks[id].active
    ensures TaskOk(q, id) && TasksOk(Finish(q, id))
  {
    assert TaskOk(q, id);
    var r, key := Finish(q, id), q.tasks[id].key;
    forall x | x in r.tasks
      ensures TaskOk(r, x)
    {
      assert TaskOk(q, x);
      assert q.tasks[x].active && q.tasks[x].key == key ==> x == id;
    }
  }

  lemma FinishKeepsInv(q: Queue, id: TaskId)
    requires Inv(q) && id in q.tasks && q.tasks[id].active
    ensures TaskOk(q, id) && Inv(Finish(q, id))
  {
    FinishTokens(q, id);
    FinishLanes(q, id);
    FinishTasks(q, id);
    IdsBounded(q);
    CountsAfter(q, Finish(q, id), id);
  }

  // ---- expiry and cancellation ----

  function Mark(q: Queue, id: TaskId, task: Task): Queue {
    q.(tasks := q.tasks[id := task])
  }

  /** Failing a task or dropping it from the deadline index changes nothing else. */
  lemma MarkTasks(q: Queue, id: TaskId, task: Task)
    requires TasksOk(q) && id in q.tasks && task == q.tasks[id].(failed := task.failed, timed := task.timed)
    requires task.failed && (q.stopped || task.active)
    ensures TasksOk(Mark(q, id, task))
  {
    var r := Mark(q, id, task);
    forall x | x in r.tasks
      ensures TaskOk(r, x)
    {
      assert TaskOk(q, x);
    }
  }

  lemma MarkLanes(q: Queue, id: TaskId, task: Task)
    requires LanesOk(q) && id in q.tasks && task == q.tasks[id].(failed := task.failed, timed := task.timed)
    ensures LanesOk(Mark(q, id, task))
  {
    var r := Mark(q, id, task);
    forall k, x | k in r.lanes && x in r.lanes[k].queue
      ensures x in r.tasks && r.tasks[x].key == k && !r.tasks[x].active
    {
      assert x in q.lanes[k].queue;
      assert x in q.tasks && q.tasks[x].key == k && !q.tasks[x].active;
    }
  }

  lemma MarkKeepsInv(q: Queue, id: TaskId, task: Task)
    requires Inv(q) && id in q.tasks && task == q.tasks[id].(failed := task.failed, timed := task.timed)
    requires task.failed && (q.stopped || task.active)
    ensures Inv(Mark(q, id, task))
  {
    hide LanesOk, TasksOk;
    MarkTasks(q, id, task);
    MarkLanes(q, id, task);
    IdsBounded(q);
    CountsAfter(q, Mark(q, id, task), id);
  }

  lemma UntimeKeepsInv(q: Queue, id: TaskId)
    requires Inv(q) && id in q.tasks && q.tasks[id].failed
    ensures Inv(Untime(q, id))
  {
    hide LanesOk, TokensOk, CountsOk;
    assert TaskOk(q, id);
    MarkKeepsInv(q, id, q.tasks[id].(timed := false));
  }

  lemma CondemnActiveKeepsInv(q: Queue, id: TaskId)
    requires Inv(q) && id in q.tasks && q.tasks[id].active
    ensures TaskOk(q, id) && Inv(Condemn(q, id))
  {
    hide LanesOk, TokensOk, CountsOk;
    assert TaskOk(q, id);
    MarkKeepsInv(q, id, q.tasks[id].(failed := true, timed := false));
  }

  lemma CondemnWaitingTokens(q: Queue, id: TaskId)
    requires TokensOk(q) && TasksOk(q) && id in q.tasks && !q.tasks[id].active
    ensures TaskOk(q, id) && TokensOk(Condemn(q, id))
  {
    assert TaskOk(q, id);
  }

  lemma CondemnWaitingLanes(q: Queue, id: TaskId)
    requires TokensOk(q) && LanesOk(q) && TasksOk(q) && id in q.tasks && !q.tasks[id].active
    ensures TaskOk(q, id) && LanesOk(Condemn(q, id))
  {
    assert TaskOk(q, id);
    var r, key := Condemn(q, id), q.tasks[id].key;
    WithoutOk(q.lanes[key].queue, id);
    forall k, x | k in r.lanes && x in r.lanes[k].queue
      ensures x in r.tasks && r.tasks[x].key == k && !r.tasks[x].active
    {
      assert x in q.lanes[k].queue;
    }
  }

  lemma CondemnWaitingTasks(q: Queue, id: TaskId)
    requires TokensOk(q) && LanesOk(q) && TasksOk(q) && id in q.tasks && !q.tasks[id].active
    ensures TaskOk(q, id) && TasksOk(Condemn(q, id))
  {
    assert TaskOk(q, id);
    var r, key := Condemn(q, id), q.tasks[id].key;
    WithoutOk(q.lanes[key].queue, id);
    forall x | x in r.tasks
      ensures TaskOk(r, x)
    {
      assert TaskOk(q, x);
    }
  }

  lemma CondemnKeepsInv(q: Queue, id: TaskId)
    requires Inv(q) && id in q.tasks
    ensures TaskOk(q, id) && Inv(Condemn(q, id))
  {
    assert TaskOk(q, id);
    if q.tasks[id].active {
      CondemnActiveKeepsInv(q, id);
    } else {
      hide LanesOk, TokensOk, CountsOk, Condemn;
      CondemnWaitingTokens(q, id);
      CondemnWaitingLanes(q, id);
      CondemnWaitingTasks(q, id);
      IdsBounded(q);
      CountsAfter(q, Condemn(q, id), id);
    }
  }

  lemma ExpireKeepsInv(q: Queue, id: TaskId)
    requires Inv(q) && id in q.tasks
    ensures TaskOk(q, id) && Inv(Expire(q, id))
  {
    hide LanesOk, TokensOk, CountsOk;
    assert TaskOk(q, id);
    if q.tasks[id].failed {
      UntimeKeepsInv(q, id);
    } else {
      var r := q.(counts := q.counts.(expired := q.counts.expired + 1));
      CounterKeepsInv(q, r);
      CondemnKeepsInv(r, id);
    }
  }

  lemma CancelKeepsInv(q: Queue, id: TaskId)
    requires Inv(q) && Cancellable(q, id)
    ensures TaskOk(q, id) && Inv(Cancel(q, id))
  {
    hide LanesOk, TokensOk, CountsOk;
    assert TaskOk(q, id);
    var r := q.(counts := q.counts.(cancelled := q.counts.cancelled + 1));
    CounterKeepsInv(q, r);
    CondemnKeepsInv(r, id);
  }

  // ---- shutdown ----

  lemma StopKeepsInv(q: Queue)
    requires Inv(q)
    ensures Inv(Stop(q))
  {
    var r := Stop(q);
    forall x | x in r.tasks
      ensures TaskOk(r, x)
    {
      assert TaskOk(q, x);
    }
    TotalSame(Bytes, q.tasks, r.tasks, q.nextId);
    TotalSame(Waiting, q.tasks, r.tasks, q.nextId);
    TotalSame(Active, q.tasks, r.tasks, q.nextId);
  }

  lemma {:induction false} TotalNone(m: Measure, n: nat)
    ensures Total(m, map[], n) == 0
  {
    if n > 0 {
      TotalNone(m, n - 1);
    }
  }

  lemma DrainKeepsInv(q: Queue)
    requires Inv(q)
    ensures Inv(Drain(q))
  {
    TotalNone(Bytes, q.nextId);
    TotalNone(Waiting, q.nextId);
    TotalNone(Active, q.nextId);
  }
}
