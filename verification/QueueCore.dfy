/**
 The keyed operation queue: what its mutex protects, and what each lock-held region does to it.
 Tasks of one key wait in the key's lane; a lane with waiting tasks and nothing running holds one
 token in `runnable`.  Time points are integers; `timed` says that a task is in the deadline index.
 */
module QueueCore {
  import opened Basics

  type Key = string
  type TaskId = nat

  datatype Failure = Overload | Deadline | Cancelled | Stopped | Exception

  datatype Task = Task(key: Key, charge: nat, deadline: int, active: bool, failed: bool, timed: bool)

  datatype Lane = Lane(active: bool, ready: bool, queue: seq<TaskId>)

  datatype Limits = Limits(workers: nat, queuedPerKey: nat, residentBytes: nat)

  datatype Counts = Counts(
    accepted: nat, completed: nat, overloaded: nat, expired: nat, cancelled: nat,
    queued: int, running: int, residentBytes: int, peakBytes: int)

  datatype Queue = Queue(
    limits: Limits, lanes: map<Key, Lane>, tasks: map<TaskId, Task>, runnable: seq<Key>,
    stopped: bool, nextId: nat, counts: Counts)

  datatype Work = Work(key: Key, bytes: nat, deadline: int)

  /** A rejected submission is reported to the submitter with this reason. */
  datatype Submission = Admitted(id: TaskId) | Refused(reason: Failure)

  const MIN_CHARGE: nat := 256

  function Fresh(limits: Limits): Queue {
    Queue(limits, map[], map[], [], false, 0, Counts(0, 0, 0, 0, 0, 0, 0, 0, 0))
  }

  function LaneOf(q: Queue, key: Key): Lane {
    if key in q.lanes then q.lanes[key] else Lane(false, false, [])
  }

  /** Gives the lane a token if it has work and is neither running nor already waiting. */
  function MakeReady(q: Queue, key: Key): Queue
    requires key in q.lanes
  {
    var lane := q.lanes[key];
    if !lane.active && !lane.ready && lane.queue != [] then
      q.(runnable := q.runnable + [key], lanes := q.lanes[key := lane.(ready := true)])
    else q
  }

  function Charge(work: Work): nat {
    if work.bytes < MIN_CHARGE then MIN_CHARGE else work.bytes
  }

  predicate Fits(q: Queue, work: Work) {
    |LaneOf(q, work.key).queue| < q.limits.queuedPerKey
    && Charge(work) <= q.limits.residentBytes - q.counts.residentBytes
  }

  function Max(a: int, b: int): int {
    if a < b then b else a
  }

  function Admit(q: Queue, work: Work): Queue {
    var id := q.nextId + 1;
    var lane := LaneOf(q, work.key);
    var resident := q.counts.residentBytes + Charge(work);
    var next := q.(
      nextId := id,
      lanes := q.lanes[work.key := lane.(queue := lane.queue + [id])],
      tasks := q.tasks[id := Task(work.key, Charge(work), work.deadline, false, false, true)],
      counts := q.counts.(accepted := q.counts.accepted + 1, queued := q.counts.queued + 1,
                          residentBytes := resident, peakBytes := Max(q.counts.peakBytes, resident)));
    MakeReady(next, work.key)
  }

  function Submit(q: Queue, work: Work, now: int): (Queue, Submission) {
    if q.stopped then (q, Refused(Stopped))
    else if work.deadline <= now then (q.(counts := q.counts.(expired := q.counts.expired + 1)), Refused(Deadline))
    else if Fits(q, work) then (Admit(q, work), Admitted(q.nextId + 1))
    else (q.(counts := q.counts.(overloaded := q.counts.overloaded + 1)), Refused(Overload))
  }

  datatype Taken = Taken(id: TaskId, late: bool)

  /** A worker takes the oldest token and starts the lane's oldest task, unless its deadline has passed. */
  function Take(q: Queue, now: int): (Queue, Option<Taken>)
    requires q.runnable != []
  {
    var key := q.runnable[0];
    var rest := q.(runnable := q.runnable[1..]);
    if key !in q.lanes then (rest, None)
    else
      var lane := q.lanes[key];
      if lane.queue == [] then
        (rest.(lanes := if lane.active then q.lanes[key := lane.(ready := false)] else q.lanes - {key}), None)
      else
        var id := lane.queue[0];
        if id !in q.tasks then (rest, None)
        else
          var late := q.tasks[id].deadline <= now;
          (rest.(lanes := q.lanes[key := Lane(true, false, lane.queue[1..])],
                 tasks := q.tasks[id := q.tasks[id].(active := true, failed := q.tasks[id].failed || late)],
                 counts := q.counts.(queued := q.counts.queued - 1, running := q.counts.running + 1,
                                     expired := if late then q.counts.expired + 1 else q.counts.expired)),
           Some(Taken(id, late)))
  }

  /** The task a worker took is done: its lane is free for the next one. */
  function Finish(q: Queue, id: TaskId): Queue
    requires id in q.tasks && q.tasks[id].key in q.lanes
  {
    var task := q.tasks[id];
    var lane := q.lanes[task.key].(active := false);
    var next := q.(tasks := q.tasks - {id},
                   counts := q.counts.(running := q.counts.running - 1,
                                       residentBytes := q.counts.residentBytes - task.charge,
                                       completed := q.counts.completed + 1));
    if lane.queue == [] then next.(lanes := q.lanes - {task.key})
    else MakeReady(next.(lanes := q.lanes[task.key := lane]), task.key)
  }

  function Without(ids: seq<TaskId>, id: TaskId): seq<TaskId> {
    if ids == [] then []
    else if ids[0] == id then ids[1..]
    else [ids[0]] + Without(ids[1..], id)
  }

  /** A task that is still waiting leaves its lane. */
  function Release(q: Queue, id: TaskId): Queue
    requires id in q.tasks && q.tasks[id].key in q.lanes
  {
    var task := q.tasks[id];
    var lane := q.lanes[task.key].(queue := Without(q.lanes[task.key].queue, id));
    q.(tasks := q.tasks - {id},
       lanes := if !lane.active && !lane.ready && lane.queue == [] then q.lanes - {task.key} else q.lanes[task.key := lane],
       counts := q.counts.(queued := q.counts.queued - 1, residentBytes := q.counts.residentBytes - task.charge))
  }

  function Untime(q: Queue, id: TaskId): Queue
    requires id in q.tasks
  {
    q.(tasks := q.tasks[id := q.tasks[id].(timed := false)])
  }

  /** Marks a task failed and takes it out of the deadline index; a waiting task also leaves its lane. */
  function Condemn(q: Queue, id: TaskId): Queue
    requires id in q.tasks && q.tasks[id].key in q.lanes
  {
    var next := q.(tasks := q.tasks[id := q.tasks[id].(failed := true, timed := false)]);
    if q.tasks[id].active then next else Release(next, id)
  }

  /** The entry the timer looks at: no timed task has an earlier deadline. */
  ghost predicate Earliest(q: Queue, id: TaskId) {
    && id in q.tasks && q.tasks[id].timed
    && forall j | j in q.tasks :: q.tasks[j].timed ==> q.tasks[id].deadline <= q.tasks[j].deadline
  }

  function Expire(q: Queue, id: TaskId): Queue
    requires id in q.tasks && q.tasks[id].key in q.lanes
  {
    if q.tasks[id].failed then Untime(q, id)
    else Condemn(q.(counts := q.counts.(expired := q.counts.expired + 1)), id)
  }

  predicate Cancellable(q: Queue, id: TaskId) {
    id in q.tasks && !q.tasks[id].failed
  }

  function Cancel(q: Queue, id: TaskId): Queue
    requires Cancellable(q, id) && q.tasks[id].key in q.lanes
  {
    Condemn(q.(counts := q.counts.(cancelled := q.counts.cancelled + 1)), id)
  }

  /** Every task not yet failed is failed; nothing is dispatched any more. */
  function Stop(q: Queue): Queue {
    q.(stopped := true, tasks := map id | id in q.tasks :: q.tasks[id].(failed := true))
  }

  /** After the threads have been joined. */
  function Drain(q: Queue): Queue {
    q.(tasks := map[], lanes := map[], runnable := [],
       counts := q.counts.(queued := 0, running := 0, residentBytes := 0))
  }

  // ---- invariant ----

  ghost predicate Ascending(ids: seq<TaskId>) {
    forall i, j | 0 <= i < j < |ids| :: ids[i] < ids[j]
  }

  /** Every lane is running one task or waits with one token, never both; tokens belong to waiting lanes. */
  ghost predicate TokensOk(q: Queue) {
    && (forall k | k in q.lanes :: q.lanes[k].active != q.lanes[k].ready)
    && Distinct(q.runnable)
    && (forall k :: k in q.runnable <==> k in q.lanes && q.lanes[k].ready)
  }

  /** A lane lists its key's waiting tasks in submission order. */
  ghost predicate LanesOk(q: Queue) {
    && (forall k | k in q.lanes :: Ascending(q.lanes[k].queue) && |q.lanes[k].queue| <= q.limits.queuedPerKey)
    && (forall k, id | k in q.lanes && id in q.lanes[k].queue ::
          id in q.tasks && q.tasks[id].key == k && !q.tasks[id].active)
  }

  ghost predicate TaskOk(q: Queue, id: TaskId)
    requires id in q.tasks
  {
    var task := q.tasks[id];
    && 1 <= id <= q.nextId && MIN_CHARGE <= task.charge
    && task.key in q.lanes
    && (task.active ==> q.lanes[task.key].active)
    && (!task.active ==> id in q.lanes[task.key].queue)
    && (!task.failed ==> task.timed)
    && (!q.stopped && task.failed ==> task.active)
    && (q.stopped ==> task.failed)
  }

  ghost predicate TasksOk(q: Queue) {
    && (forall id | id in q.tasks :: TaskOk(q, id))
    && (forall a, b | a in q.tasks && b in q.tasks ::
          q.tasks[a].active && q.tasks[b].active && q.tasks[a].key == q.tasks[b].key ==> a == b)
  }

  datatype Measure = Bytes | Waiting | Active

  ghost function Weight(m: Measure, task: Task): nat {
    match m
    case Bytes => task.charge
    case Waiting => if task.active then 0 else 1
    case Active => if task.active then 1 else 0
  }

  ghost function WeightAt(m: Measure, tasks: map<TaskId, Task>, id: TaskId): nat {
    if id in tasks then Weight(m, tasks[id]) else 0
  }

  /** Sum over the tasks with ids up to n. */
  ghost function Total(m: Measure, tasks: map<TaskId, Task>, n: nat): nat {
    WeightAt(m, tasks, n) + if n == 0 then 0 else Total(m, tasks, n - 1)
  }

  /** The counters are the sums they stand for, and the byte reservation stays within its limit. */
  ghost predicate CountsOk(q: Queue) {
    && q.counts.residentBytes == Total(Bytes, q.tasks, q.nextId)
    && q.counts.queued == Total(Waiting, q.tasks, q.nextId)
    && q.counts.running == Total(Active, q.tasks, q.nextId)
    && q.counts.residentBytes <= q.counts.peakBytes <= q.limits.residentBytes
  }

  ghost predicate Inv(q: Queue) {
    TokensOk(q) && LanesOk(q) && TasksOk(q) && CountsOk(q)
  }

  lemma {:induction false} TotalSame(m: Measure, a: map<TaskId, Task>, b: map<TaskId, Task>, n: nat)
    requires forall i | 0 <= i <= n :: WeightAt(m, a, i) == WeightAt(m, b, i)
    ensures Total(m, a, n) == Total(m, b, n)
  {
    if n > 0 {
      TotalSame(m, a, b, n - 1);
    }
  }

  /** Changing one task changes the sum by its own weight. */
  lemma {:induction false} TotalChange(m: Measure, a: map<TaskId, Task>, b: map<TaskId, Task>, id: TaskId, n: nat)
    requires id <= n
    requires forall i | i != id :: WeightAt(m, a, i) == WeightAt(m, b, i)
    ensures Total(m, b, n) == Total(m, a, n) - WeightAt(m, a, id) + WeightAt(m, b, id)
    decreases n
  {
    if n == id {
      if n > 0 {
        TotalSame(m, a, b, n - 1);
      }
    } else {
      TotalChange(m, a, b, id, n - 1);
    }
  }

  lemma {:induction false} TotalAbove(m: Measure, tasks: map<TaskId, Task>, id: TaskId, n: nat)
    requires id in tasks && id <= n
    ensures Weight(m, tasks[id]) <= Total(m, tasks, n)
    decreases n
  {
    if id < n {
      TotalAbove(m, tasks, id, n - 1);
    }
  }
}
