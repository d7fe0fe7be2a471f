/**
 Every interleaving of registrations, updates and the delivery worker.  One step is one lock-held
 region; a send or a ping is in flight between the step that selects it and the step that completes it.
 */
module AlarmDelivery {
  import opened AlarmEncoding
  import opened AlarmCore

  datatype Sent = Sent(event: Event, epoch: nat)

  datatype Flight = Idle | Sending(sent: Sent) | Pinging

  /** `attempts` lists every event selected for sending, `accepted` those the stream took. */
  datatype State = State(core: Core, flight: Flight, attempts: seq<Sent>, accepted: seq<Sent>)

  datatype Step =
    | Prepared(name: string, encoded: Stored)
    | Activated(id: SlotId)
    | Retired(id: SlotId)
    | Removed(id: SlotId)
    | Updated(id: SlotId, encoded: Stored)
    | Enabled
    | Stopped
    | SelectQueued
    | SelectScanned(id: SlotId)
    | SelectNothing(ping: bool)
    | Completed(result: SendResult)

  ghost predicate WorkerReady(s: State) {
    s.flight.Idle? && s.core.enabled && !s.core.stopping
  }

  ghost predicate Possible(s: State, step: Step) {
    match step
    case Prepared(_, _) => true
    case Activated(id) => id in s.core.slots
    case Retired(id) => id in s.core.slots
    case Removed(id) => id in s.core.slots
    case Updated(id, _) => id in s.core.slots
    case Enabled => true
    case Stopped => true
    case SelectQueued => WorkerReady(s) && HasQueued(s.core)
    case SelectScanned(id) => WorkerReady(s) && !HasQueued(s.core) && ScanPick(s.core, id)
    case SelectNothing(ping) =>
      && WorkerReady(s)
      && !HasQueued(s.core)
      && (forall id :: !Eligible(s.core, id))
      && (ping ==> exists id :: Current(s.core, id))
    case Completed(_) => !s.flight.Idle?
  }

  ghost function Select(s: State, core: Core, event: Event): State {
    var sent := Sent(event, s.core.epoch);
    s.(core := core, flight := Sending(sent), attempts := s.attempts + [sent])
  }

  ghost function Complete(s: State, result: SendResult): State
    requires !s.flight.Idle?
  {
    if !result.Accepted? then s.(core := Fail(s.core, result), flight := Idle)
    else if s.flight.Pinging? then s.(core := s.core.(live := true), flight := Idle)
    else s.(core := Deliver(s.core, s.flight.sent.event, s.flight.sent.epoch),
            flight := Idle, accepted := s.accepted + [s.flight.sent])
  }

  ghost function Effect(s: State, step: Step): State
    requires Possible(s, step)
  {
    match step
    case Prepared(name, encoded) => s.(core := Prepare(s.core, name, encoded))
    case Activated(id) => s.(core := Activate(s.core, id))
    case Retired(id) => s.(core := Retire(s.core, id))
    case Removed(id) => s.(core := Remove(s.core, id))
    case Updated(id, encoded) => s.(core := Update(s.core, id, encoded))
    case Enabled => s.(core := s.core.(enabled := true))
    case Stopped => s.(core := s.core.(stopping := true))
    case SelectQueued => Select(s, TakeQueued(s.core), QueuedEvent(s.core))
    case SelectScanned(id) => Select(s, TakeScanned(s.core, id), SlotEvent(s.core, id))
    case SelectNothing(ping) => s.(core := TakeNothing(s.core), flight := if ping then Pinging else Idle)
    case Completed(result) => Complete(s, result)
  }

  ghost function Start(capacity: nat): State {
    State(Fresh(capacity), Idle, [], [])
  }

  ghost function Apply(s: State, step: Step): State {
    if Possible(s, step) then Effect(s, step) else s
  }

  ghost function After(s: State, steps: seq<Step>): State {
    if steps == [] then s else Apply(After(s, steps[..|steps| - 1]), steps[|steps| - 1])
  }

  // ---- invariant ----

  ghost predicate FlagsOk(c: Core) {
    && 1 <= c.capacity && |c.queue| <= c.capacity
    && (!c.live ==> c.recovering)
    && (c.recovering ==> c.queue == [])
  }

  ghost predicate SlotOk(c: Core, id: SlotId)
    requires id in c.slots
  {
    var slot := c.slots[id];
    && 1 <= id <= c.nextId
    && 1 <= slot.revision && slot.delivered <= slot.revision
    && slot.deliveredEpoch <= c.epoch
    && !(slot.active && slot.retired)
    && (slot.deliveredEpoch >= 1 ==> slot.delivered >= 1)
  }

  ghost predicate SlotsOk(c: Core) {
    1 <= c.epoch && forall id | id in c.slots :: SlotOk(c, id)
  }

  /** The event is a snapshot of some revision its slot has had. */
  ghost predicate Known(c: Core, e: Event) {
    && e.slot <= c.nextId && 1 <= e.revision
    && (e.slot in c.slots ==>
          var slot := c.slots[e.slot];
          && e.name == slot.name
          && e.revision <= slot.revision
          && (e.revision == slot.revision ==> e.state == slot.latest))
  }

  ghost predicate QueueOk(c: Core) {
    && (forall i | 0 <= i < |c.queue| :: Known(c, c.queue[i]))
    && (forall i, j | 0 <= i < j < |c.queue| ::
          c.queue[i].slot == c.queue[j].slot ==> c.queue[i].revision < c.queue[j].revision)
  }

  /** Revisions of one slot never go backwards in a log, and the queue is ahead of it. */
  ghost predicate LogOk(c: Core, log: seq<Sent>) {
    && (forall i | 0 <= i < |log| :: Known(c, log[i].event) && log[i].epoch <= c.epoch)
    && Monotone(log)
    && (forall i, j | 0 <= i < |log| && 0 <= j < |c.queue| ::
          log[i].event.slot == c.queue[j].slot ==> log[i].event.revision < c.queue[j].revision)
  }

  ghost predicate Monotone(log: seq<Sent>) {
    forall i, j | 0 <= i < j < |log| ::
      && log[i].epoch <= log[j].epoch
      && (log[i].event.slot == log[j].event.slot ==> log[i].event.revision <= log[j].event.revision)
  }

  ghost predicate FlightOk(s: State) {
    s.flight.Sending? ==>
      var sent := s.flight.sent;
      && s.attempts != [] && s.attempts[|s.attempts| - 1] == sent
      && (sent.event.slot in s.core.slots ==> Pending(s.core, sent.event.slot))
      && (forall i | 0 <= i < |s.accepted| ::
            && s.accepted[i].epoch <= sent.epoch
            && (s.accepted[i].event.slot == sent.event.slot ==> s.accepted[i].event.revision <= sent.event.revision))
  }

  /** Index of the last entry of a slot, or -1. */
  ghost function LastOf(log: seq<Sent>, id: SlotId): (r: int)
    ensures -1 <= r < |log|
    ensures r >= 0 ==> log[r].event.slot == id
    ensures forall k | r < k < |log| :: log[k].event.slot != id
  {
    if log == [] then -1
    else if log[|log| - 1].event.slot == id then |log| - 1
    else LastOf(log[..|log| - 1], id)
  }

  /** Some accepted event of the slot is at least this revision and epoch. */
  ghost predicate Backed(log: seq<Sent>, id: SlotId, delivered: nat, epoch: nat) {
    exists k | 0 <= k < |log| ::
      log[k].event.slot == id && log[k].event.revision >= delivered && log[k].epoch >= epoch
  }

  /** What a slot claims as delivered was accepted. */
  ghost predicate DeliveredOk(s: State) {
    forall id | id in s.core.slots && s.core.slots[id].delivered >= 1 ::
      Backed(s.accepted, id, s.core.slots[id].delivered, s.core.slots[id].deliveredEpoch)
  }

  /** Accepted events were selected: none overtakes another. */
  ghost predicate AcceptedWereSelected(s: State) {
    forall i | 0 <= i < |s.accepted| :: s.accepted[i] in s.attempts
  }

  ghost predicate Inv(s: State) {
    && FlagsOk(s.core)
    && SlotsOk(s.core)
    && QueueOk(s.core)
    && LogOk(s.core, s.attempts)
    && LogOk(s.core, s.accepted)
    && FlightOk(s)
    && DeliveredOk(s)
    && AcceptedWereSelected(s)
  }

  /** Slots only move forward: revisions grow, names never change, ids are not reused. */
  ghost predicate Evolves(c: Core, d: Core) {
    && c.nextId <= d.nextId && c.epoch <= d.epoch
    && forall id | id in d.slots :: SlotEvolves(c, d, id)
  }

  ghost predicate SlotEvolves(c: Core, d: Core, id: SlotId)
    requires id in d.slots
  {
    if id in c.slots then
      var a, b := c.slots[id], d.slots[id];
      && a.name == b.name && a.revision <= b.revision
      && (a.revision == b.revision ==> a.latest == b.latest)
    else id > c.nextId
  }

  /** The slots of d claim no delivery that those of c did not, and stay pending. */
  ghost predicate ClaimsNoMore(c: Core, d: Core) {
    forall id | id in d.slots ::
      if id in c.slots then
        && d.slots[id].delivered == c.slots[id].delivered
        && d.slots[id].deliveredEpoch == c.slots[id].deliveredEpoch
        && (Pending(c, id) ==> Pending(d, id))
      else d.slots[id].delivered == 0
  }

  lemma KnownStays(c: Core, d: Core, e: Event)
    requires Evolves(c, d) && Known(c, e)
    ensures Known(d, e)
  {
    if e.slot in d.slots {
      assert SlotEvolves(c, d, e.slot);
    }
  }

  lemma LogStays(c: Core, d: Core, log: seq<Sent>)
    requires Evolves(c, d) && LogOk(c, log)
    ensures forall i | 0 <= i < |log| :: Known(d, log[i].event) && log[i].epoch <= d.epoch
  {
    forall i | 0 <= i < |log|
      ensures Known(d, log[i].event)
    {
      KnownStays(c, d, log[i].event);
    }
  }

  /** Any change of the core that drops a prefix of the ring and lets slots evolve keeps the invariant. */
  lemma CoreChangeKeepsInv(s: State, d: Core, n: nat)
    requires Inv(s) && n <= |s.core.queue|
    requires FlagsOk(d) && SlotsOk(d) && Evolves(s.core, d) && ClaimsNoMore(s.core, d)
    requires d.queue == s.core.queue[n..]
    ensures Inv(s.(core := d))
  {
    var c := s.core;
    LogStays(c, d, s.attempts);
    LogStays(c, d, s.accepted);
    forall i | 0 <= i < |d.queue|
      ensures d.queue[i] == c.queue[n + i] && Known(d, d.queue[i])
    {
      KnownStays(c, d, c.queue[n + i]);
    }
    assert QueueOk(d);
    assert LogOk(d, s.attempts);
    assert LogOk(d, s.accepted);
    if s.flight.Sending? && s.flight.sent.event.slot in d.slots {
      var id := s.flight.sent.event.slot;
      assert Known(c, s.attempts[|s.attempts| - 1].event);
      assert SlotEvolves(c, d, id);
    }
  }

  lemma PreparedKeepsInv(s: State, name: string, encoded: Stored)
    requires Inv(s)
    ensures Inv(s.(core := Prepare(s.core, name, encoded)))
  {
    if !s.core.stopping {
      var d := Prepare(s.core, name, encoded);
      assert forall id | id in d.slots && id != d.nextId :: id in s.core.slots && SlotOk(s.core, id);
      assert d.queue == s.core.queue[0..];
      CoreChangeKeepsInv(s, d, 0);
    }
  }

  /** Only the flags of slots and of the publisher differ, and nothing pending is dropped. */
  ghost predicate FlagChange(c: Core, d: Core) {
    && d == c.(slots := d.slots, enabled := d.enabled, stopping := d.stopping)
    && forall id | id in d.slots ::
         && id in c.slots
         && d.slots[id] == c.slots[id].(active := d.slots[id].active, retired := d.slots[id].retired,
                                        force := d.slots[id].force)
         && !(d.slots[id].active && d.slots[id].retired)
         && (c.slots[id].force ==> d.slots[id].force)
  }

  lemma FlagChangeKeepsInv(s: State, d: Core)
    requires Inv(s) && FlagChange(s.core, d)
    ensures Inv(s.(core := d))
  {
    forall id | id in d.slots
      ensures SlotOk(d, id) && SlotEvolves(s.core, d, id)
    {
      assert SlotOk(s.core, id);
    }
    assert d.queue == s.core.queue[0..];
    CoreChangeKeepsInv(s, d, 0);
  }

  lemma NoneActiveAndRetired(c: Core)
    requires SlotsOk(c)
    ensures forall j | j in c.slots :: !(c.slots[j].active && c.slots[j].retired)
  {
    forall j | j in c.slots
      ensures !(c.slots[j].active && c.slots[j].retired)
    {
      assert SlotOk(c, j);
    }
  }

  lemma ActivateChangesFlags(c: Core, id: SlotId)
    requires SlotsOk(c) && id in c.slots
    ensures FlagChange(c, Activate(c, id))
  {
    NoneActiveAndRetired(c);
  }

  lemma RetireChangesFlags(c: Core, id: SlotId)
    requires SlotsOk(c) && id in c.slots
    ensures FlagChange(c, Retire(c, id))
  {
    NoneActiveAndRetired(c);
  }

  lemma RemoveChangesFlags(c: Core, id: SlotId)
    requires SlotsOk(c)
    ensures FlagChange(c, Remove(c, id))
  {
    NoneActiveAndRetired(c);
  }

  lemma RegistrationKeepsInv(s: State, id: SlotId)
    requires Inv(s) && id in s.core.slots
    ensures Inv(s.(core := Activate(s.core, id)))
    ensures Inv(s.(core := Retire(s.core, id)))
    ensures Inv(s.(core := Remove(s.core, id)))
  {
    ActivateChangesFlags(s.core, id);
    FlagChangeKeepsInv(s, Activate(s.core, id));
    RetireChangesFlags(s.core, id);
    FlagChangeKeepsInv(s, Retire(s.core, id));
    RemoveChangesFlags(s.core, id);
    FlagChangeKeepsInv(s, Remove(s.core, id));
  }

  lemma SwitchKeepsInv(s: State, enabled: bool, stopping: bool)
    requires Inv(s)
    ensures Inv(s.(core := s.core.(enabled := enabled, stopping := stopping)))
  {
    NoneActiveAndRetired(s.core);
    FlagChangeKeepsInv(s, s.core.(enabled := enabled, stopping := stopping));
  }

  lemma RecordEvolves(c: Core, id: SlotId, encoded: Stored)
    requires SlotsOk(c) && id in c.slots && c.slots[id].latest != encoded
    ensures var d := Record(c, id, encoded); SlotsOk(d) && Evolves(c, d) && ClaimsNoMore(c, d)
  {
    var d := Record(c, id, encoded);
    assert forall j | j in d.slots :: j in c.slots && SlotOk(c, j);
  }

  /** A transition put at the back of the ring is newer than everything selected or queued for its slot. */
  lemma EnqueueKeepsInv(s: State, e: Event)
    requires Inv(s) && s.core.live && !s.core.recovering && |s.core.queue| < s.core.capacity
    requires e.slot in s.core.slots && Known(s.core, e) && e.revision == s.core.slots[e.slot].revision
    requires forall i | 0 <= i < |s.core.queue| :: s.core.queue[i].slot == e.slot ==> s.core.queue[i].revision < e.revision
    requires forall i | 0 <= i < |s.attempts| :: s.attempts[i].event.slot == e.slot ==> s.attempts[i].event.revision < e.revision
    requires forall i | 0 <= i < |s.accepted| :: s.accepted[i].event.slot == e.slot ==> s.accepted[i].event.revision < e.revision
    ensures Inv(s.(core := s.core.(queue := s.core.queue + [e])))
  {
    var c := s.core;
    var d := c.(queue := c.queue + [e]);
    assert Evolves(c, d);
    LogStays(c, d, s.attempts);
    LogStays(c, d, s.accepted);
    forall i | 0 <= i < |c.queue|
      ensures Known(d, c.queue[i])
    {
      KnownStays(c, d, c.queue[i]);
    }
    assert forall id | id in d.slots :: SlotOk(c, id) && SlotOk(d, id);
  }

  lemma UpdatedKeepsInv(s: State, id: SlotId, encoded: Stored)
    requires Inv(s) && id in s.core.slots
    ensures Inv(s.(core := Update(s.core, id, encoded)))
  {
    var c := s.core;
    if !Ignored(c, id, encoded) {
      var next := Record(c, id, encoded);
      RecordEvolves(c, id, encoded);
      assert next.queue == c.queue[0..];
      CoreChangeKeepsInv(s, next, 0);
      var t := s.(core := next);
      if c.enabled && Current(next, id) {
        if c.live && !c.recovering && |c.queue| < c.capacity {
          forall i | 0 <= i < |c.queue|
            ensures c.queue[i].slot == id ==> c.queue[i].revision < next.slots[id].revision
          {
            assert Known(c, c.queue[i]);
          }
          forall i | 0 <= i < |s.attempts|
            ensures s.attempts[i].event.slot == id ==> s.attempts[i].event.revision < next.slots[id].revision
          {
            assert Known(c, s.attempts[i].event);
          }
          forall i | 0 <= i < |s.accepted|
            ensures s.accepted[i].event.slot == id ==> s.accepted[i].event.revision < next.slots[id].revision
          {
            assert Known(c, s.accepted[i].event);
          }
          EnqueueKeepsInv(t, SlotEvent(next, id));
        } else if |c.queue| == c.capacity {
          RestartKeepsInv(t, t.core);
        }
      }
    }
  }

  lemma RestartKeepsInv(s: State, c: Core)
    requires Inv(s) && c == s.core.(live := c.live)
    ensures Inv(s.(core := Restart(c)))
  {
    var d := Restart(c);
    assert forall id | id in d.slots :: SlotOk(s.core, id) && SlotOk(d, id);
    assert d.queue == s.core.queue[|s.core.queue|..];
    CoreChangeKeepsInv(s, d, |s.core.queue|);
  }

  /** Selecting an event that is not older than anything selected before keeps the invariant. */
  lemma SelectKeepsInv(s: State, e: Event)
    requires Inv(s) && s.flight.Idle? && Known(s.core, e)
    requires e.slot in s.core.slots && Pending(s.core, e.slot)
    requires forall i | 0 <= i < |s.core.queue| :: s.core.queue[i].slot == e.slot ==> e.revision < s.core.queue[i].revision
    requires forall i | 0 <= i < |s.attempts| :: s.attempts[i].event.slot == e.slot ==> s.attempts[i].event.revision <= e.revision
    requires forall i | 0 <= i < |s.accepted| :: s.accepted[i].event.slot == e.slot ==> s.accepted[i].event.revision <= e.revision
    ensures Inv(Select(s, s.core, e))
  {
  }

  lemma QueuedIsPending(s: State)
    requires Inv(s) && HasQueued(s.core)
    ensures QueuedEvent(s.core).slot in s.core.slots && Pending(s.core, QueuedEvent(s.core).slot)
  {
    var c, e := s.core, QueuedEvent(s.core);
    assert Known(c, e);
    if c.slots[e.slot].delivered >= 1 {
      assert Backed(s.accepted, e.slot, c.slots[e.slot].delivered, c.slots[e.slot].deliveredEpoch);
    }
  }

  lemma TakeQueuedKeepsInv(s: State)
    requires Inv(s) && HasQueued(s.core)
    ensures Inv(s.(core := TakeQueued(s.core)))
  {
    var c, d := s.core, TakeQueued(s.core);
    assert forall id | id in d.slots :: SlotOk(c, id) && SlotOk(d, id);
    CoreChangeKeepsInv(s, d, StaleCount(c, c.queue) + 1);
  }

  lemma SelectQueuedKeepsInv(s: State)
    requires Inv(s) && Possible(s, SelectQueued)
    ensures Inv(Effect(s, SelectQueued))
  {
    var c, d, e := s.core, TakeQueued(s.core), QueuedEvent(s.core);
    var n := StaleCount(c, c.queue);
    QueuedIsPending(s);
    TakeQueuedKeepsInv(s);
    forall i | 0 <= i < |d.queue|
      ensures d.queue[i].slot == e.slot ==> e.revision < d.queue[i].revision
    {
      assert d.queue[i] == c.queue[n + 1 + i];
    }
    assert Known(c, e);
    SelectKeepsInv(s.(core := d), e);
  }

  lemma SelectScannedKeepsInv(s: State, id: SlotId)
    requires Inv(s) && Possible(s, SelectScanned(id))
    ensures Inv(Effect(s, SelectScanned(id)))
  {
    var c, d, e := s.core, TakeScanned(s.core, id), SlotEvent(s.core, id);
    assert forall j | j in d.slots :: SlotOk(c, j) && SlotOk(d, j);
    assert d.queue == c.queue[|c.queue|..];
    CoreChangeKeepsInv(s, d, |c.queue|);
    forall i | 0 <= i < |s.attempts|
      ensures s.attempts[i].event.slot == id ==> s.attempts[i].event.revision <= e.revision
    {
      assert Known(c, s.attempts[i].event);
    }
    forall i | 0 <= i < |s.accepted|
      ensures s.accepted[i].event.slot == id ==> s.accepted[i].event.revision <= e.revision
    {
      assert Known(c, s.accepted[i].event);
    }
    SelectKeepsInv(s.(core := d), e);
  }

  lemma SelectNothingKeepsInv(s: State, ping: bool)
    requires Inv(s) && Possible(s, SelectNothing(ping))
    ensures Inv(Effect(s, SelectNothing(ping)))
  {
    var c, d := s.core, TakeNothing(s.core);
    assert forall j | j in d.slots :: SlotOk(c, j) && SlotOk(d, j);
    assert d.queue == c.queue[|c.queue|..];
    CoreChangeKeepsInv(s, d, |c.queue|);
  }

  lemma DeliverCoreOk(s: State)
    requires Inv(s) && s.flight.Sending?
    ensures var d := Deliver(s.core, s.flight.sent.event, s.flight.sent.epoch);
            SlotsOk(d) && Evolves(s.core, d) && QueueOk(d)
  {
    var c, sent := s.core, s.flight.sent;
    var d := Deliver(c, sent.event, sent.epoch);
    assert Known(c, s.attempts[|s.attempts| - 1].event) && sent.epoch <= c.epoch;
    forall id | id in d.slots
      ensures SlotOk(d, id) && SlotEvolves(c, d, id)
    {
      assert SlotOk(c, id);
    }
    forall i | 0 <= i < |d.queue|
      ensures Known(d, d.queue[i])
    {
      KnownStays(c, d, c.queue[i]);
    }
  }

  /** The accepted log grows by the send in flight. */
  lemma AcceptLogs(s: State, d: Core)
    requires Inv(s) && s.flight.Sending?
    requires Evolves(s.core, d) && d.queue == s.core.queue
    ensures LogOk(d, s.attempts) && LogOk(d, s.accepted + [s.flight.sent])
  {
    var c, sent := s.core, s.flight.sent;
    var log := s.accepted + [sent];
    LogStays(c, d, s.attempts);
    LogStays(c, d, s.accepted);
    assert s.attempts[|s.attempts| - 1] == sent;
    assert Monotone(log);
    forall i, j | 0 <= i < |log| && 0 <= j < |d.queue|
      ensures log[i].event.slot == d.queue[j].slot ==> log[i].event.revision < d.queue[j].revision
    {
      assert i == |s.accepted| || log[i] == s.accepted[i];
    }
  }

  lemma AcceptKeepsInv(s: State)
    requires Inv(s) && s.flight.Sending?
    ensures Inv(Effect(s, Completed(Accepted)))
  {
    DeliverCoreOk(s);
    AcceptLogs(s, Deliver(s.core, s.flight.sent.event, s.flight.sent.epoch));
    AcceptDelivers(s);
  }

  lemma BackedStays(log: seq<Sent>, sent: Sent, id: SlotId, delivered: nat, epoch: nat)
    requires Backed(log, id, delivered, epoch)
    ensures Backed(log + [sent], id, delivered, epoch)
  {
    var k :| 0 <= k < |log| && log[k].event.slot == id && log[k].event.revision >= delivered && log[k].epoch >= epoch;
    assert (log + [sent])[k] == log[k];
  }

  lemma AcceptDelivers(s: State)
    requires Inv(s) && s.flight.Sending?
    ensures DeliveredOk(Effect(s, Completed(Accepted)))
  {
    var c, sent := s.core, s.flight.sent;
    var d := Deliver(c, sent.event, sent.epoch);
    var log := s.accepted + [sent];
    forall id | id in d.slots && d.slots[id].delivered >= 1
      ensures Backed(log, id, d.slots[id].delivered, d.slots[id].deliveredEpoch)
    {
      var was := c.slots[id];
      if was.delivered >= 1 {
        BackedStays(s.accepted, sent, id, was.delivered, was.deliveredEpoch);
      }
      if d.slots[id] != was {
        assert log[|s.accepted|] == sent;
      }
    }
  }

  lemma CompletedKeepsInv(s: State, result: SendResult)
    requires Inv(s) && Possible(s, Completed(result))
    ensures Inv(Effect(s, Completed(result)))
  {
    if !result.Accepted? {
      RestartKeepsInv(s.(flight := Idle), s.core.(live := s.core.live && result.Rejected?));
    } else if s.flight.Pinging? {
      var d := s.core.(live := true);
      assert forall j | j in d.slots :: SlotOk(s.core, j) && SlotOk(d, j);
      assert d.queue == s.core.queue[0..];
      CoreChangeKeepsInv(s.(flight := Idle), d, 0);
    } else {
      AcceptKeepsInv(s);
    }
  }

  /** Every lock-held region keeps the invariant. */
  lemma StepKeepsInv(s: State, step: Step)
    requires Inv(s)
    ensures Inv(Apply(s, step))
  {
    if Possible(s, step) {
      match step
      case Prepared(name, encoded) => PreparedKeepsInv(s, name, encoded);
      case Updated(id, encoded) => UpdatedKeepsInv(s, id, encoded);
      case SelectQueued => SelectQueuedKeepsInv(s);
      case SelectScanned(id) => SelectScannedKeepsInv(s, id);
      case SelectNothing(ping) => SelectNothingKeepsInv(s, ping);
      case Completed(result) => CompletedKeepsInv(s, result);
      case Enabled => SwitchKeepsInv(s, true, s.core.stopping);
      case Stopped => SwitchKeepsInv(s, s.core.enabled, true);
      case _ => RegistrationKeepsInv(s, step.id);
    }
  }
}
