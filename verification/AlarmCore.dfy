/**
 The state of the alarm delivery worker that its mutex protects, and what each lock-held region
 does to it.  A slot is one registration; the newest usable registration of a name is current.
 */
module AlarmCore {
  import opened AlarmEncoding

  type SlotId = nat

  datatype Slot = Slot(
    name: string, latest: Stored, revision: nat, delivered: nat, deliveredEpoch: nat,
    active: bool, retired: bool, force: bool)
  {
    predicate Usable() {
      active && !retired
    }
  }

  /** A transition waiting in the ring, or being sent. */
  datatype Event = Event(slot: SlotId, name: string, state: Stored, revision: nat)

  datatype SendResult = Accepted | Rejected | Unavailable

  datatype Core = Core(
    capacity: nat, slots: map<SlotId, Slot>, queue: seq<Event>,
    nextId: nat, lastId: nat, epoch: nat,
    enabled: bool, stopping: bool, recovering: bool, live: bool)

  function Fresh(capacity: nat): Core {
    Core(capacity, map[], [], 0, 0, 1, false, false, true, false)
  }

  /** The slot is usable and no newer usable registration carries its name. */
  predicate CurrentIn(slots: map<SlotId, Slot>, id: SlotId) {
    && id in slots
    && slots[id].Usable()
    && forall j | j in slots :: j > id && slots[j].name == slots[id].name ==> !slots[j].Usable()
  }

  predicate Current(c: Core, id: SlotId) {
    CurrentIn(c.slots, id)
  }

  predicate SlotPending(slot: Slot, epoch: nat) {
    slot.force || slot.deliveredEpoch != epoch || slot.delivered < slot.revision
  }

  predicate Pending(c: Core, id: SlotId)
    requires id in c.slots
  {
    SlotPending(c.slots[id], c.epoch)
  }

  predicate Eligible(c: Core, id: SlotId) {
    Current(c, id) && Pending(c, id)
  }

  /** The state string "ready" of the published status. */
  ghost predicate Ready(c: Core) {
    && !c.stopping && c.enabled && c.live && !c.recovering
    && c.queue == []
    && (exists id :: Current(c, id))
    && forall id :: Current(c, id) ==> !Pending(c, id)
  }

  // ---- registrations ----

  function Prepare(c: Core, name: string, encoded: Stored): Core {
    if c.stopping then c
    else c.(nextId := c.nextId + 1,
            slots := c.slots[c.nextId + 1 := Slot(name, encoded, 1, 0, 0, false, false, true)])
  }

  function Activate(c: Core, id: SlotId): Core
    requires id in c.slots
  {
    var slot := c.slots[id];
    if slot.retired || slot.active then c
    else c.(slots := c.slots[id := slot.(active := true, force := true)])
  }

  function Retire(c: Core, id: SlotId): Core
    requires id in c.slots
  {
    c.(slots := c.slots[id := c.slots[id].(active := false, retired := true)])
  }

  function Remove(c: Core, id: SlotId): Core {
    c.(slots := c.slots - {id})
  }

  /** Drop every queued transition, start a new epoch and reconcile. */
  function Restart(c: Core): Core {
    c.(queue := [], epoch := c.epoch + 1, recovering := true)
  }

  function Record(c: Core, id: SlotId, encoded: Stored): Core
    requires id in c.slots
  {
    var slot := c.slots[id];
    c.(slots := c.slots[id := slot.(latest := encoded, revision := slot.revision + 1)])
  }

  predicate Ignored(c: Core, id: SlotId, encoded: Stored)
    requires id in c.slots
  {
    c.stopping || c.slots[id].retired || c.slots[id].latest == encoded
  }

  /** An update that finds the ring full. */
  predicate Overflows(c: Core, id: SlotId, encoded: Stored)
    requires id in c.slots
  {
    !Ignored(c, id, encoded) && c.enabled && Current(c, id) && |c.queue| == c.capacity
  }

  function Update(c: Core, id: SlotId, encoded: Stored): Core
    requires id in c.slots
  {
    if Ignored(c, id, encoded) then c
    else
      var next := Record(c, id, encoded);
      var slot := next.slots[id];
      if !c.enabled || !Current(next, id) then next
      else if c.live && !c.recovering && |c.queue| < c.capacity then
        next.(queue := c.queue + [Event(id, slot.name, encoded, slot.revision)])
      else if |c.queue| == c.capacity then Restart(next)
      else next
  }

  // ---- worker ----

  /** How many transitions at the front of the ring belong to superseded or removed slots. */
  function StaleCount(c: Core, q: seq<Event>): (n: nat)
    ensures n <= |q|
    ensures n < |q| ==> Current(c, q[n].slot)
    ensures forall i | 0 <= i < n :: !Current(c, q[i].slot)
  {
    if q == [] || Current(c, q[0].slot) then 0
    else 1 + StaleCount(c, q[1..])
  }

  /** Position of an id in the rotation that starts just after the last slot scanned. */
  predicate NoLater(last: nat, a: SlotId, b: SlotId) {
    if a > last then b > last ==> a <= b else b <= last && a <= b
  }

  /** The reconciliation scan stops at this slot. */
  ghost predicate ScanPick(c: Core, id: SlotId) {
    Eligible(c, id) && forall j :: Eligible(c, j) ==> NoLater(c.lastId, id, j)
  }

  /** The ring holds a transition worth sending. */
  predicate HasQueued(c: Core) {
    StaleCount(c, c.queue) < |c.queue|
  }

  function QueuedEvent(c: Core): Event
    requires HasQueued(c)
  {
    c.queue[StaleCount(c, c.queue)]
  }

  function TakeQueued(c: Core): Core
    requires HasQueued(c)
  {
    c.(queue := c.queue[StaleCount(c, c.queue) + 1..])
  }

  function SlotEvent(c: Core, id: SlotId): Event
    requires id in c.slots
  {
    Event(id, c.slots[id].name, c.slots[id].latest, c.slots[id].revision)
  }

  function TakeScanned(c: Core, id: SlotId): Core {
    c.(queue := [], lastId := id)
  }

  function TakeNothing(c: Core): Core {
    c.(queue := [], recovering := c.recovering && !c.live)
  }

  function Max(a: nat, b: nat): nat {
    if a < b then b else a
  }

  /** A send of `event`, started in `epoch`, was accepted. */
  function Deliver(c: Core, event: Event, epoch: nat): Core {
    if Current(c, event.slot) then
      var slot := c.slots[event.slot];
      c.(live := true,
         slots := c.slots[event.slot := slot.(delivered := Max(slot.delivered, event.revision),
                                              deliveredEpoch := epoch, force := false)])
    else c.(live := true)
  }

  function Fail(c: Core, result: SendResult): Core {
    Restart(c.(live := c.live && result.Rejected?))
  }
}
