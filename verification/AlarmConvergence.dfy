/**
 What the alarm delivery worker promises over whole runs: agreement of the stream with the latest
 states whenever the status says "ready", order of revisions, and no revision lost between failures.
 */
module AlarmConvergence {
  import opened AlarmEncoding
  import opened AlarmCore
  import opened AlarmDelivery

  lemma {:induction false} RunKeepsInv(capacity: nat, steps: seq<Step>)
    requires 1 <= capacity
    ensures Inv(After(Start(capacity), steps))
    decreases |steps|
  {
    if steps != [] {
      RunKeepsInv(capacity, steps[..|steps| - 1]);
      StepKeepsInv(After(Start(capacity), steps[..|steps| - 1]), steps[|steps| - 1]);
    }
  }

  /** The stream's last event of the slot is the slot's latest state, sent in the current epoch. */
  ghost predicate Agrees(s: State, id: SlotId)
    requires id in s.core.slots
  {
    var k := LastOf(s.accepted, id);
    && k >= 0
    && s.accepted[k].event.state == s.core.slots[id].latest
    && s.accepted[k].event.revision == s.core.slots[id].revision
    && s.accepted[k].epoch == s.core.epoch
  }

  lemma SettledAgrees(s: State, id: SlotId)
    requires Inv(s) && Current(s.core, id) && !Pending(s.core, id)
    ensures Agrees(s, id)
  {
    var slot := s.core.slots[id];
    assert SlotOk(s.core, id);
    assert Backed(s.accepted, id, slot.delivered, slot.deliveredEpoch);
    var k := LastOf(s.accepted, id);
    assert Known(s.core, s.accepted[k].event) && s.accepted[k].epoch <= s.core.epoch;
  }

  // ---- what the clients asked for ----

  /** What clients said about a registration, without any of the worker's bookkeeping. */
  datatype Entry = Entry(name: string, state: Stored, active: bool, retired: bool)

  datatype Book = Book(stopped: bool, given: nat, entries: map<SlotId, Entry>)

  ghost function Noted(b: Book, step: Step): Book {
    match step
    case Prepared(name, encoded) =>
      if b.stopped then b
      else b.(given := b.given + 1, entries := b.entries[b.given + 1 := Entry(name, encoded, false, false)])
    case Activated(id) =>
      if id in b.entries && !b.entries[id].retired then b.(entries := b.entries[id := b.entries[id].(active := true)]) else b
    case Retired(id) => if id in b.entries then b.(entries := b.entries[id := b.entries[id].(retired := true)]) else b
    case Removed(id) => b.(entries := b.entries - {id})
    case Updated(id, encoded) =>
      if id in b.entries && !b.entries[id].retired && !b.stopped
      then b.(entries := b.entries[id := b.entries[id].(state := encoded)]) else b
    case Stopped => b.(stopped := true)
    case _ => b
  }

  /** The last word of the clients about every registration. */
  ghost function Told(steps: seq<Step>): Book {
    if steps == [] then Book(false, 0, map[]) else Noted(Told(steps[..|steps| - 1]), steps[|steps| - 1])
  }

  /** The newest registration of its name that was activated and not retired. */
  ghost predicate InCharge(b: Book, id: SlotId) {
    && id in b.entries && b.entries[id].active && !b.entries[id].retired
    && forall j | j in b.entries && j > id && b.entries[j].name == b.entries[id].name ::
         !b.entries[j].active || b.entries[j].retired
  }

  ghost predicate SameWord(entry: Entry, slot: Slot) {
    && entry.name == slot.name && entry.state == slot.latest && entry.retired == slot.retired
    && (entry.active && !entry.retired <==> slot.Usable())
  }

  ghost predicate Follows(b: Book, c: Core) {
    && b.stopped == c.stopping && b.given == c.nextId && b.entries.Keys == c.slots.Keys
    && forall id | id in b.entries :: SameWord(b.entries[id], c.slots[id])
  }

  /** What a client's step does, on both sides. */
  lemma ClientFollows(b: Book, c: Core, step: Step)
    requires Follows(b, c)
    ensures step.Prepared? ==> Follows(Noted(b, step), Prepare(c, step.name, step.encoded))
    ensures step.Activated? && step.id in c.slots && !(c.slots[step.id].active && c.slots[step.id].retired)
            ==> Follows(Noted(b, step), Activate(c, step.id))
    ensures step.Retired? && step.id in c.slots ==> Follows(Noted(b, step), Retire(c, step.id))
    ensures step.Removed? ==> Follows(Noted(b, step), Remove(c, step.id))
  {
  }

  lemma UpdateFollows(b: Book, c: Core, id: SlotId, encoded: Stored)
    requires Follows(b, c) && id in c.slots
    ensures Follows(Noted(b, Updated(id, encoded)), Update(c, id, encoded))
  {
    hide CurrentIn;
  }

  lemma SameSlotsFollow(b: Book, c: Core, d: Core)
    requires Follows(b, c) && d.slots == c.slots && d.stopping == c.stopping && d.nextId == c.nextId
    ensures Follows(b, d)
  {
  }

  lemma DeliverFollows(b: Book, c: Core, e: Event, epoch: nat)
    requires Follows(b, c)
    ensures Follows(b, Deliver(c, e, epoch))
  {
  }

  /** The worker changes nothing that clients said. */
  lemma WorkerFollows(b: Book, s: State, step: Step)
    requires Follows(b, s.core) && Possible(s, step)
    requires step.Enabled? || step.SelectQueued? || step.SelectScanned? || step.SelectNothing? || step.Completed?
    ensures Follows(b, Apply(s, step).core)
  {
    hide StaleCount, ScanPick, Eligible, Follows, Deliver;
    if step == Completed(Accepted) && s.flight.Sending? {
      DeliverFollows(b, s.core, s.flight.sent.event, s.flight.sent.epoch);
    } else {
      SameSlotsFollow(b, s.core, Apply(s, step).core);
    }
  }

  lemma StepFollows(b: Book, s: State, step: Step)
    requires Inv(s) && Follows(b, s.core)
    ensures Follows(Noted(b, step), Apply(s, step).core)
  {
    if Possible(s, step) {
      match step
      case Updated(id, encoded) => UpdateFollows(b, s.core, id, encoded);
      case Activated(id) =>
        assert SlotOk(s.core, id);
        hide Inv, Follows, Noted;
        ClientFollows(b, s.core, step);
      case Prepared(_, _) => ClientFollows(b, s.core, step);
      case Retired(_) => ClientFollows(b, s.core, step);
      case Removed(_) => ClientFollows(b, s.core, step);
      case Stopped =>
      case _ => WorkerFollows(b, s, step);
    }
  }

  /** In every run a slot holds the last state its registration was given before it was retired or everything stopped. */
  lemma {:induction false} SlotsHoldTheLastWord(capacity: nat, steps: seq<Step>)
    requires 1 <= capacity
    ensures Follows(Told(steps), After(Start(capacity), steps).core)
    decreases |steps|
  {
    if steps != [] {
      var before := steps[..|steps| - 1];
      SlotsHoldTheLastWord(capacity, before);
      RunKeepsInv(capacity, before);
      hide Inv, Follows, Noted, Apply;
      StepFollows(Told(before), After(Start(capacity), before), steps[|steps| - 1]);
    }
  }

  /** The registration the worker serves under a name is the one in charge of it. */
  lemma CurrentIsInCharge(b: Book, c: Core, id: SlotId)
    requires Follows(b, c)
    ensures Current(c, id) <==> InCharge(b, id)
  {
  }

  /** In every run, "ready" means that what the stream last took from each registration in charge is the last state it was given. */
  lemma ReadyMeansDelivered(capacity: nat, steps: seq<Step>, id: SlotId)
    requires 1 <= capacity && Ready(After(Start(capacity), steps).core) && InCharge(Told(steps), id)
    ensures var s := After(Start(capacity), steps);
            var k := LastOf(s.accepted, id);
            && k >= 0 && s.accepted[k].event.state == Told(steps).entries[id].state
            && s.accepted[k].event.name == Told(steps).entries[id].name && s.accepted[k].epoch == s.core.epoch
            && id in s.core.slots && s.accepted[k].event.revision == s.core.slots[id].revision
  {
    RunKeepsInv(capacity, steps);
    SlotsHoldTheLastWord(capacity, steps);
    var s := After(Start(capacity), steps);
    CurrentIsInCharge(Told(steps), s.core, id);
    SettledAgrees(s, id);
    assert Known(s.core, s.accepted[LastOf(s.accepted, id)].event);
  }

  /** In every run, revisions of a slot are selected and accepted in order, and only selected events are accepted. */
  lemma RevisionsNeverGoBack(capacity: nat, steps: seq<Step>)
    requires 1 <= capacity
    ensures var s := After(Start(capacity), steps);
            && Monotone(s.attempts) && Monotone(s.accepted)
            && forall i | 0 <= i < |s.accepted| :: s.accepted[i] in s.attempts
  {
    RunKeepsInv(capacity, steps);
  }

  /** A registration that was not activated, was retired or has been superseded is never selected. */
  lemma SelectedIsCurrent(s: State, step: Step)
    ensures var t := Apply(s, step);
            t.attempts == s.attempts ||
            exists x: Sent :: t.attempts == s.attempts + [x] && Current(s.core, x.event.slot) && x.epoch == s.core.epoch
  {
    if Possible(s, step) {
      match step
      case SelectQueued =>
        assert Effect(s, step).attempts == s.attempts + [Sent(QueuedEvent(s.core), s.core.epoch)];
      case SelectScanned(id) =>
        assert Effect(s, step).attempts == s.attempts + [Sent(SlotEvent(s.core, id), s.core.epoch)];
      case _ =>
    }
  }

  // ---- agreement per name ----

  /** Index of the last entry carrying a name, or -1. */
  ghost function LastNamed(log: seq<Sent>, name: string): (r: int)
    ensures -1 <= r < |log|
    ensures r >= 0 ==> log[r].event.name == name
    ensures forall k | r < k < |log| :: log[k].event.name != name
  {
    if log == [] then -1
    else if log[|log| - 1].event.name == name then |log| - 1
    else LastNamed(log[..|log| - 1], name)
  }

  ghost predicate Older(c: Core, id: SlotId, x: SlotId)
    requires id in c.slots
  {
    x in c.slots && x < id && c.slots[x].name == c.slots[id].name && c.slots[x].Usable()
  }

  /** The current registration of a name is not withdrawn while an older one of that name is still usable. */
  ghost predicate Disciplined(s: State, step: Step) {
    (step.Retired? || step.Removed?) && Current(s.core, step.id) ==>
      forall x | x in s.core.slots :: !Older(s.core, step.id, x)
  }

  ghost predicate DisciplinedRun(s: State, steps: seq<Step>) {
    steps == [] ||
    (DisciplinedRun(s, steps[..|steps| - 1]) && Disciplined(After(s, steps[..|steps| - 1]), steps[|steps| - 1]))
  }

  /** Once a current registration has been delivered, its event is the last one of its name. */
  ghost predicate NameInv(s: State) {
    && (forall x | x in s.core.slots :: Current(s.core, x) && !s.core.slots[x].force ==> OwnsName(s, x))
    && (s.flight.Sending? ==>
          forall x | x in s.core.slots ::
            Current(s.core, x) && s.core.slots[x].name == s.flight.sent.event.name && x != s.flight.sent.event.slot
            ==> s.core.slots[x].force)
  }

  ghost predicate OwnsName(s: State, x: SlotId)
    requires x in s.core.slots
  {
    var k := LastNamed(s.accepted, s.core.slots[x].name);
    k >= 0 && s.accepted[k].event.slot == x
  }

  /** Every registration current in d is forced, or was current and keeps its force flag. */
  ghost predicate NoRevival(c: Core, d: Core) {
    forall x | x in d.slots :: Current(d, x) && !d.slots[x].force ==>
      Current(c, x) && !c.slots[x].force && c.slots[x].name == d.slots[x].name
  }

  lemma NoRevivalKeepsNames(s: State, d: Core)
    requires NameInv(s) && NoRevival(s.core, d)
    ensures NameInv(s.(core := d))
  {
    var t := s.(core := d);
    forall x | x in d.slots && Current(d, x) && !d.slots[x].force
      ensures OwnsName(t, x)
    {
      assert OwnsName(s, x);
    }
  }

  /** A registration that becomes current when `id` is withdrawn was next in line behind it. */
  lemma WithdrawRevives(c: Core, id: SlotId, d: Core, x: SlotId)
    requires id in c.slots && (d == Retire(c, id) || d == Remove(c, id))
    requires Current(d, x) && !Current(c, x)
    ensures Current(c, id) && Older(c, id, x)
  {
    assert x != id && d.slots[x] == c.slots[x];
    var j :| j in c.slots && j > x && c.slots[j].name == c.slots[x].name && c.slots[j].Usable();
    assert forall w | w in c.slots && w != id :: w in d.slots && d.slots[w] == c.slots[w];
    assert j == id;
    forall w | w in c.slots && w > id && c.slots[w].name == c.slots[id].name
      ensures !c.slots[w].Usable()
    {
      assert w in d.slots && d.slots[w] == c.slots[w];
    }
  }

  lemma WithdrawRevivesNone(c: Core, id: SlotId, d: Core)
    requires id in c.slots && (d == Retire(c, id) || d == Remove(c, id))
    requires Current(c, id) ==> forall x | x in c.slots :: !Older(c, id, x)
    ensures NoRevival(c, d)
  {
    forall x | x in d.slots && Current(d, x) && !d.slots[x].force
      ensures Current(c, x)
    {
      if !Current(c, x) {
        WithdrawRevives(c, id, d, x);
      }
    }
  }

  lemma SlotChangeRevivesNone(c: Core, d: Core, id: SlotId)
    requires id in c.slots && id in d.slots && d.slots == c.slots[id := d.slots[id]]
    requires d.slots[id].name == c.slots[id].name
    requires d.slots[id].force || (d.slots[id].Usable() == c.slots[id].Usable() && d.slots[id].force == c.slots[id].force)
    requires c.slots[id].Usable() ==> d.slots[id].Usable()
    ensures NoRevival(c, d)
  {
    forall x | x in d.slots && Current(d, x) && !d.slots[x].force
      ensures Current(c, x)
    {
      forall j | j in c.slots && j > x && c.slots[j].name == c.slots[x].name
        ensures !c.slots[j].Usable()
      {
        assert j in d.slots;
      }
    }
  }

  lemma PrepareRevivesNone(c: Core, name: string, encoded: Stored)
    requires SlotsOk(c)
    ensures NoRevival(c, Prepare(c, name, encoded))
  {
    var d := Prepare(c, name, encoded);
    if d != c {
      forall x | x in d.slots && Current(d, x) && !d.slots[x].force
        ensures Current(c, x)
      {
        forall j | j in c.slots && j > x && c.slots[j].name == c.slots[x].name
          ensures !c.slots[j].Usable()
        {
          assert SlotOk(c, j);
          assert j in d.slots;
        }
      }
    }
  }

  lemma SameSlotsReviveNone(c: Core, d: Core)
    requires d.slots == c.slots
    ensures NoRevival(c, d)
    ensures forall x :: Current(c, x) <==> Current(d, x)
  {
  }

  lemma UpdateRevivesNone(c: Core, id: SlotId, encoded: Stored)
    requires id in c.slots
    ensures NoRevival(c, Update(c, id, encoded))
  {
    if Ignored(c, id, encoded) {
      SameSlotsReviveNone(c, c);
    } else {
      SlotChangeRevivesNone(c, Update(c, id, encoded), id);
    }
  }

  lemma SelectKeepsNames(s: State, d: Core, e: Event)
    requires NameInv(s) && d.slots == s.core.slots
    requires Current(s.core, e.slot) && e.name == s.core.slots[e.slot].name
    ensures NameInv(Select(s, d, e))
  {
    SameSlotsReviveNone(s.core, d);
    NoRevivalKeepsNames(s, d);
  }

  lemma AcceptKeepsNames(s: State)
    requires NameInv(s) && s.flight.Sending? && Known(s.core, s.flight.sent.event)
    ensures NameInv(Complete(s, Accepted))
  {
    var c, e := s.core, s.flight.sent.event;
    var t := Complete(s, Accepted);
    forall x | x in t.core.slots && Current(t.core, x) && !t.core.slots[x].force
      ensures OwnsName(t, x)
    {
      assert Current(c, x) by {
        forall j | j in c.slots && j > x && c.slots[j].name == c.slots[x].name
          ensures !c.slots[j].Usable()
        {
          assert j in t.core.slots;
        }
      }
      if x != e.slot {
        assert OwnsName(s, x);
        assert c.slots[x].name != e.name;
      }
    }
  }

  lemma StepKeepsNames(s: State, step: Step)
    requires Inv(s) && NameInv(s) && Disciplined(s, step)
    ensures NameInv(Apply(s, step))
  {
    if Possible(s, step) {
      match step
      case Prepared(name, encoded) =>
        PrepareRevivesNone(s.core, name, encoded);
        NoRevivalKeepsNames(s, Prepare(s.core, name, encoded));
      case Activated(id) =>
        SlotChangeRevivesNone(s.core, Activate(s.core, id), id);
        NoRevivalKeepsNames(s, Activate(s.core, id));
      case Retired(id) =>
        WithdrawRevivesNone(s.core, id, Retire(s.core, id));
        NoRevivalKeepsNames(s, Retire(s.core, id));
      case Removed(id) =>
        WithdrawRevivesNone(s.core, id, Remove(s.core, id));
        NoRevivalKeepsNames(s, Remove(s.core, id));
      case Updated(id, encoded) =>
        UpdateRevivesNone(s.core, id, encoded);
        NoRevivalKeepsNames(s, Update(s.core, id, encoded));
      case SelectQueued =>
        assert Known(s.core, QueuedEvent(s.core));
        SelectKeepsNames(s, TakeQueued(s.core), QueuedEvent(s.core));
      case SelectScanned(id) =>
        SelectKeepsNames(s, TakeScanned(s.core, id), SlotEvent(s.core, id));
      case Completed(result) =>
        if result.Accepted? && s.flight.Sending? {
          assert Known(s.core, s.attempts[|s.attempts| - 1].event);
          AcceptKeepsNames(s);
        } else {
          SameSlotsReviveNone(s.core, Effect(s, step).core);
          NoRevivalKeepsNames(s, Effect(s, step).core);
        }
      case _ =>
        SameSlotsReviveNone(s.core, Effect(s, step).core);
        NoRevivalKeepsNames(s, Effect(s, step).core);
    }
  }

  lemma {:induction false} DisciplinedRunKeepsNames(capacity: nat, steps: seq<Step>)
    requires 1 <= capacity && DisciplinedRun(Start(capacity), steps)
    ensures NameInv(After(Start(capacity), steps))
    decreases |steps|
  {
    if steps != [] {
      var before := steps[..|steps| - 1];
      DisciplinedRunKeepsNames(capacity, before);
      RunKeepsInv(capacity, before);
      StepKeepsNames(After(Start(capacity), before), steps[|steps| - 1]);
    }
  }

  /** The stream's last event of a name is the latest state of the registration that is current for it. */
  ghost predicate NameAgrees(s: State, id: SlotId)
    requires id in s.core.slots
  {
    var k := LastNamed(s.accepted, s.core.slots[id].name);
    k >= 0 && s.accepted[k].event.state == s.core.slots[id].latest
  }

  lemma SettledNameAgrees(s: State, id: SlotId)
    requires Inv(s) && NameInv(s) && Current(s.core, id) && !Pending(s.core, id)
    ensures NameAgrees(s, id) && OwnsName(s, id)
  {
    SettledAgrees(s, id);
    assert OwnsName(s, id);
    var k := LastNamed(s.accepted, s.core.slots[id].name);
    var l := LastOf(s.accepted, id);
    assert Known(s.core, s.accepted[l].event);
  }

  /** With that discipline, "ready" means that the stream's last event of every name is the last state given for it. */
  lemma ReadyMeansNameDelivered(capacity: nat, steps: seq<Step>, id: SlotId)
    requires 1 <= capacity && DisciplinedRun(Start(capacity), steps)
    requires Ready(After(Start(capacity), steps).core) && InCharge(Told(steps), id)
    ensures var s := After(Start(capacity), steps);
            var k := LastNamed(s.accepted, Told(steps).entries[id].name);
            k >= 0 && s.accepted[k].event.state == Told(steps).entries[id].state
  {
    RunKeepsInv(capacity, steps);
    DisciplinedRunKeepsNames(capacity, steps);
    SlotsHoldTheLastWord(capacity, steps);
    var s := After(Start(capacity), steps);
    CurrentIsInCharge(Told(steps), s.core, id);
    SettledNameAgrees(s, id);
  }

  /** The registration that becomes current when `id` goes. */
  ghost predicate NextInLine(c: Core, id: SlotId, x: SlotId)
    requires id in c.slots
  {
    Older(c, id, x) && forall w | w in c.slots :: Older(c, id, w) ==> w <= x
  }

  lemma WithdrawPromotes(c: Core, id: SlotId, x: SlotId, d: Core)
    requires Current(c, id) && NextInLine(c, id, x) && (d == Retire(c, id) || d == Remove(c, id))
    ensures Current(d, x)
    ensures forall w :: Current(d, w) ==> w == x || Current(c, w)
  {
    assert forall w | w in c.slots && x < w < id && c.slots[w].name == c.slots[id].name :: !Older(c, id, w);
    assert d.slots[x] == c.slots[x];
    forall w | Current(d, w)
      ensures w == x || Current(c, w)
    {
      if w != x && !Current(c, w) {
        WithdrawRevives(c, id, d, w);
        assert false;
      }
    }
  }

  lemma WithdrawalReadyIff(c: Core, id: SlotId, x: SlotId, d: Core)
    requires Ready(c) && Current(c, id) && NextInLine(c, id, x) && (d == Retire(c, id) || d == Remove(c, id))
    ensures Ready(d) <==> !Pending(c, x)
  {
    WithdrawPromotes(c, id, x, d);
    if !Pending(c, x) {
      forall w | Current(d, w)
        ensures !Pending(d, w)
      {
        assert w == x || Current(c, w);
      }
    }
  }

  /**
   Withdrawing the current registration in a ready state while an older one is usable: the older one is
   current at once.  If it still counts as delivered the worker keeps reporting "ready", and the stream
   agrees with the name if and only if both registrations held the same state.
   */
  lemma WithdrawalAgreesIff(capacity: nat, steps: seq<Step>, id: SlotId, x: SlotId, removed: bool)
    requires 1 <= capacity && DisciplinedRun(Start(capacity), steps)
    requires var c := After(Start(capacity), steps).core; Ready(c) && Current(c, id) && NextInLine(c, id, x)
    ensures var s := After(Start(capacity), steps);
            var t := Apply(s, if removed then Removed(id) else Retired(id));
            && Current(t.core, x)
            && (Ready(t.core) <==> !Pending(s.core, x))
            && (NameAgrees(t, x) <==> s.core.slots[x].latest == s.core.slots[id].latest)
  {
    var s := After(Start(capacity), steps);
    RunKeepsInv(capacity, steps);
    DisciplinedRunKeepsNames(capacity, steps);
    SettledNameAgrees(s, id);
    WithdrawalAgrees(s, id, x, if removed then Remove(s.core, id) else Retire(s.core, id));
  }

  lemma WithdrawalAgrees(s: State, id: SlotId, x: SlotId, d: Core)
    requires Ready(s.core) && Current(s.core, id) && NameAgrees(s, id) && NextInLine(s.core, id, x)
    requires d == Retire(s.core, id) || d == Remove(s.core, id)
    ensures Current(d, x)
    ensures Ready(d) <==> !Pending(s.core, x)
    ensures NameAgrees(s.(core := d), x) <==> s.core.slots[x].latest == s.core.slots[id].latest
  {
    WithdrawPromotes(s.core, id, x, d);
    WithdrawalReadyIff(s.core, id, x, d);
  }

  // ---- a withdrawal at any other moment ----

  ghost predicate SentSince(s: State, n: nat, x: SlotId) {
    exists k | n <= k < |s.accepted| :: s.accepted[k].event.slot == x
  }

  /** Since state `s` the stream has heard of the name from x only, except for what was in flight. */
  ghost predicate HeardOnly(s: State, u: State, x: SlotId, name: string) {
    && s.accepted <= u.accepted && x in u.core.slots && u.core.slots[x].name == name
    && (forall k | |s.accepted| <= k < |u.accepted| && u.accepted[k].event.name == name ::
          u.accepted[k].event.slot == x || (k == |s.accepted| && s.flight == Sending(u.accepted[k])))
    && (u.flight.Sending? && u.flight.sent.event.name == name ==>
          u.flight.sent.event.slot == x || (|u.accepted| == |s.accepted| && u.flight == s.flight))
  }

  ghost predicate StaysCurrent(s: State, steps: seq<Step>, x: SlotId) {
    Current(After(s, steps).core, x) && (steps == [] || StaysCurrent(s, steps[..|steps| - 1], x))
  }

  lemma OnlyCurrentIsSelected(u: State, step: Step, x: SlotId)
    requires Inv(u) && Current(u.core, x) && Possible(u, step) && (step.SelectQueued? || step.SelectScanned?)
    ensures var e := Apply(u, step).flight.sent.event; e.name == u.core.slots[x].name ==> e.slot == x
  {
    if step.SelectQueued? {
      assert Known(u.core, QueuedEvent(u.core));
    }
  }

  /** What one step does to the log, to the flight and to a slot that stays current. */
  lemma StepLogs(u: State, step: Step, x: SlotId)
    requires Inv(u) && Current(u.core, x) && Current(Apply(u, step).core, x)
    ensures var t := Apply(u, step);
            && (t.accepted == u.accepted || (u.flight.Sending? && t.accepted == u.accepted + [u.flight.sent] && t.flight.Idle?))
            && (t.flight.Sending? && t.flight != u.flight ==>
                  t.flight.sent.event.name == u.core.slots[x].name ==> t.flight.sent.event.slot == x)
            && t.core.slots[x].name == u.core.slots[x].name
  {
    if Possible(u, step) && (step.SelectQueued? || step.SelectScanned?) {
      OnlyCurrentIsSelected(u, step, x);
    }
    hide Inv, CurrentIn, StaleCount;
  }

  lemma StaysPending(u: State, step: Step, x: SlotId)
    requires Inv(u) && Current(u.core, x) && Current(Apply(u, step).core, x) && Pending(u.core, x)
    ensures var t := Apply(u, step);
            Pending(t.core, x) || (u.flight.Sending? && u.flight.sent.event.slot == x && t.accepted == u.accepted + [u.flight.sent])
  {
    assert SlotOk(u.core, x);
    hide Inv, CurrentIn, StaleCount;
  }

  lemma SentStays(u: State, t: State, n: nat, x: SlotId)
    requires u.accepted <= t.accepted
    ensures SentSince(u, n, x) ==> SentSince(t, n, x)
    ensures |t.accepted| > |u.accepted| >= n && t.accepted[|u.accepted|].event.slot == x ==> SentSince(t, n, x)
  {
    if SentSince(u, n, x) {
      var k :| n <= k < |u.accepted| && u.accepted[k].event.slot == x;
      assert t.accepted[k].event.slot == x;
    }
  }

  lemma StepHears(s: State, u: State, step: Step, x: SlotId, name: string)
    requires Inv(u) && HeardOnly(s, u, x, name) && Current(u.core, x) && Current(Apply(u, step).core, x)
    ensures HeardOnly(s, Apply(u, step), x, name)
    ensures Pending(u.core, x) ==> Pending(Apply(u, step).core, x) || SentSince(Apply(u, step), |s.accepted|, x)
    ensures SentSince(u, |s.accepted|, x) ==> SentSince(Apply(u, step), |s.accepted|, x)
  {
    hide Inv, Apply, Pending, SentSince;
    StepLogs(u, step, x);
    if Pending(u.core, x) {
      StaysPending(u, step, x);
    }
    SentStays(u, Apply(u, step), |s.accepted|, x);
  }

  lemma {:induction false} RunHears(s: State, w: State, more: seq<Step>, x: SlotId, name: string)
    requires Inv(w) && HeardOnly(s, w, x, name) && StaysCurrent(w, more, x)
    ensures Inv(After(w, more)) && HeardOnly(s, After(w, more), x, name) && x in w.core.slots
    ensures Pending(w.core, x) ==> Pending(After(w, more).core, x) || SentSince(After(w, more), |s.accepted|, x)
    decreases |more|
  {
    if more != [] {
      var before := more[..|more| - 1];
      RunHears(s, w, before, x, name);
      StepKeepsInv(After(w, before), more[|more| - 1]);
      hide Inv, HeardOnly, Apply, Pending, SentSince;
      StepHears(s, After(w, before), more[|more| - 1], x, name);
    }
  }

  /** What the stream heard last of the name, once x counts as delivered. */
  lemma HeardAgrees(s: State, t: State, x: SlotId, name: string)
    requires Inv(t) && HeardOnly(s, t, x, name) && Current(t.core, x) && !Pending(t.core, x)
    ensures SentSince(t, |s.accepted|, x) ==> NameAgrees(t, x)
    ensures !SentSince(t, |s.accepted|, x) ==>
              var k := LastNamed(t.accepted, name);
              k == LastNamed(s.accepted, name) || (k == |s.accepted| && s.flight == Sending(t.accepted[k]))
  {
    SettledAgrees(t, x);
    var k, l := LastNamed(t.accepted, name), LastOf(t.accepted, x);
    assert Known(t.core, t.accepted[l].event);
    assert l <= k;
    if SentSince(t, |s.accepted|, x) {
      var j :| |s.accepted| <= j < |t.accepted| && t.accepted[j].event.slot == x;
      assert t.accepted[k].event.slot == x;
    } else if k < |s.accepted| {
      assert t.accepted[..|s.accepted|] == s.accepted;
    }
  }

  /**
   Withdrawing the current registration at any moment, ready or not, while an older one is usable: at every later
   ready moment at which that one is still current the stream agrees with the name if it took anything from it since,
   which it did if it was waiting for delivery when it became current.  Otherwise the stream's last event of the name
   is the one it had before, or the one that was in flight.
   */
  lemma LaterReadyAgrees(capacity: nat, steps: seq<Step>, id: SlotId, x: SlotId, removed: bool, more: seq<Step>)
    requires 1 <= capacity
    requires var s := After(Start(capacity), steps);
             var w := Apply(s, if removed then Removed(id) else Retired(id));
             && Current(s.core, id) && NextInLine(s.core, id, x) && StaysCurrent(w, more, x) && Ready(After(w, more).core)
    ensures var s := After(Start(capacity), steps);
            var w := Apply(s, if removed then Removed(id) else Retired(id));
            var t := After(w, more);
            && Current(w.core, x) && Current(t.core, x)
            && (Pending(w.core, x) ==> SentSince(t, |s.accepted|, x))
            && (SentSince(t, |s.accepted|, x) ==> NameAgrees(t, x))
            && (!SentSince(t, |s.accepted|, x) ==>
                  var k := LastNamed(t.accepted, s.core.slots[id].name);
                  k == LastNamed(s.accepted, s.core.slots[id].name) || (k == |s.accepted| && s.flight == Sending(t.accepted[k])))
  {
    var s := After(Start(capacity), steps);
    var step := if removed then Removed(id) else Retired(id);
    var w := Apply(s, step);
    var name := s.core.slots[id].name;
    RunKeepsInv(capacity, steps);
    StepKeepsInv(s, step);
    WithdrawPromotes(s.core, id, x, w.core);
    assert HeardOnly(s, w, x, name);
    hide Inv, HeardOnly, SentSince, NameAgrees, NextInLine;
    RunHears(s, w, more, x, name);
    HeardAgrees(s, After(w, more), x, name);
  }

  // ---- nothing lost between failures ----

  ghost function Range(a: nat, b: nat): (r: seq<nat>) {
    if a < b then Range(a, b - 1) + [b - 1] else []
  }

  ghost function AcceptedRevisions(log: seq<Sent>, id: SlotId): seq<nat> {
    if log == [] then []
    else AcceptedRevisions(log[..|log| - 1], id)
         + if log[|log| - 1].event.slot == id then [log[|log| - 1].event.revision] else []
  }

  ghost function QueuedRevisions(q: seq<Event>, id: SlotId): seq<nat> {
    if q == [] then []
    else (if q[0].slot == id then [q[0].revision] else []) + QueuedRevisions(q[1..], id)
  }

  ghost function FlightRevisions(f: Flight, id: SlotId): seq<nat> {
    if f.Sending? && f.sent.event.slot == id then [f.sent.event.revision] else []
  }

  /** Selected or queued, not yet accepted. */
  ghost function Outstanding(s: State, id: SlotId): seq<nat> {
    FlightRevisions(s.flight, id) + QueuedRevisions(s.core.queue, id)
  }

  /** The worker is healthy and exactly the revisions after the delivered one are on their way, in order. */
  ghost predicate Steady(s: State, id: SlotId) {
    && s.core.enabled && s.core.live && !s.core.recovering
    && Current(s.core, id)
    && !s.core.slots[id].force && s.core.slots[id].deliveredEpoch == s.core.epoch
    && (s.flight.Sending? && s.flight.sent.event.slot == id ==> s.flight.sent.epoch == s.core.epoch)
    && Outstanding(s, id) == Range(s.core.slots[id].delivered + 1, s.core.slots[id].revision + 1)
  }

  /** No failed send, no overflow, and the slot stays current. */
  ghost predicate Smooth(s: State, step: Step, id: SlotId) {
    && !(step.Completed? && !step.result.Accepted?)
    && !(step.Updated? && step.id in s.core.slots && Overflows(s.core, step.id, step.encoded))
    && Current(Apply(s, step).core, id)
  }

  ghost predicate SmoothRun(s: State, steps: seq<Step>, id: SlotId) {
    steps == [] ||
    (SmoothRun(s, steps[..|steps| - 1], id) && Smooth(After(s, steps[..|steps| - 1]), steps[|steps| - 1], id))
  }

  lemma {:induction false} QueuedAppend(q: seq<Event>, e: Event, id: SlotId)
    ensures QueuedRevisions(q + [e], id) == QueuedRevisions(q, id) + if e.slot == id then [e.revision] else []
  {
    if q == [] {
      assert (q + [e])[1..] == [];
    } else {
      QueuedAppend(q[1..], e, id);
      assert (q + [e])[1..] == q[1..] + [e];
    }
  }

  lemma {:induction false} QueuedSkip(q: seq<Event>, n: nat, id: SlotId)
    requires n <= |q| && forall i | 0 <= i < n :: q[i].slot != id
    ensures QueuedRevisions(q, id) == QueuedRevisions(q[n..], id)
  {
    if n > 0 {
      QueuedSkip(q[1..], n - 1, id);
      assert q[1..][n - 1..] == q[n..];
    } else {
      assert q[0..] == q;
    }
  }

  lemma {:induction false} RangeSplit(a: nat, b: nat)
    requires a < b
    ensures Range(a, b) == [a] + Range(a + 1, b)
  {
    if a + 1 < b {
      RangeSplit(a, b - 1);
    }
  }

  lemma {:induction false} RangeJoin(a: nat, b: nat, c: nat)
    requires a <= b <= c
    ensures Range(a, c) == Range(a, b) + Range(b, c)
  {
    if b < c {
      RangeJoin(a, b, c - 1);
    }
  }

  lemma {:induction false} RangeLength(a: nat, b: nat)
    requires a <= b
    ensures |Range(a, b)| == b - a
  {
    if a < b {
      RangeLength(a, b - 1);
    }
  }

  ghost predicate Continues(s: State, t: State, id: SlotId)
    requires id in s.core.slots && id in t.core.slots
  {
    && s.core.slots[id].delivered <= t.core.slots[id].delivered
    && AcceptedRevisions(t.accepted, id)
       == AcceptedRevisions(s.accepted, id) + Range(s.core.slots[id].delivered + 1, t.core.slots[id].delivered + 1)
  }

  lemma SelectQueuedSteady(s: State, id: SlotId)
    requires Steady(s, id) && Possible(s, SelectQueued)
    ensures Steady(Effect(s, SelectQueued), id)
  {
    var c, d := s.core, TakeQueued(s.core);
    var n := StaleCount(c, c.queue);
    QueuedSkip(c.queue, n, id);
    assert c.queue[n..][1..] == d.queue;
    SameSlotsReviveNone(c, d);
  }

  lemma NoQueuedOutstanding(s: State, id: SlotId)
    requires SlotsOk(s.core) && Steady(s, id) && s.flight.Idle? && !HasQueued(s.core)
    ensures QueuedRevisions(s.core.queue, id) == [] && !Pending(s.core, id)
  {
    var c := s.core;
    QueuedSkip(c.queue, |c.queue|, id);
    assert SlotOk(c, id);
    RangeLength(c.slots[id].delivered + 1, c.slots[id].revision + 1);
  }

  lemma RecordKeepsCurrent(c: Core, id: SlotId, encoded: Stored, x: SlotId)
    requires id in c.slots
    ensures Current(Record(c, id, encoded), x) <==> Current(c, x)
  {
    var d := Record(c, id, encoded);
    assert forall j | j in c.slots :: d.slots[j].name == c.slots[j].name && d.slots[j].Usable() == c.slots[j].Usable();
  }

  lemma UpdateOtherSteady(s: State, other: SlotId, encoded: Stored, id: SlotId)
    requires Steady(s, id) && other in s.core.slots && other != id
    requires !Overflows(s.core, other, encoded)
    ensures Steady(s.(core := Update(s.core, other, encoded)), id)
  {
    var c, d := s.core, Update(s.core, other, encoded);
    if !Ignored(c, other, encoded) {
      RecordKeepsCurrent(c, other, encoded, other);
      RecordKeepsCurrent(c, other, encoded, id);
      QueuedAppend(c.queue, SlotEvent(Record(c, other, encoded), other), id);
      assert Current(d, id) by {
        assert d.slots == Record(c, other, encoded).slots;
      }
    }
  }

  lemma UpdateSteady(s: State, encoded: Stored, id: SlotId)
    requires FlagsOk(s.core) && SlotsOk(s.core) && Steady(s, id)
    requires !Overflows(s.core, id, encoded)
    ensures Steady(s.(core := Update(s.core, id, encoded)), id)
  {
    var c, d := s.core, Update(s.core, id, encoded);
    if !Ignored(c, id, encoded) {
      RecordKeepsCurrent(c, id, encoded, id);
      assert d.queue == c.queue + [SlotEvent(d, id)];
      QueuedAppend(c.queue, SlotEvent(d, id), id);
      assert SlotOk(c, id);
      assert Current(d, id) by {
        assert d.slots == Record(c, id, encoded).slots;
      }
    }
  }

  /** The revision in flight is the one after the last delivered. */
  lemma FlightIsNext(s: State, id: SlotId)
    requires SlotsOk(s.core) && Steady(s, id) && s.flight.Sending? && s.flight.sent.event.slot == id
    ensures var slot := s.core.slots[id];
            && s.flight.sent.event.revision == slot.delivered + 1 <= slot.revision
            && QueuedRevisions(s.core.queue, id) == Range(slot.delivered + 2, slot.revision + 1)
  {
    var slot := s.core.slots[id];
    assert SlotOk(s.core, id);
    assert Outstanding(s, id)[0] == s.flight.sent.event.revision;
    RangeLength(slot.delivered + 1, slot.revision + 1);
    RangeSplit(slot.delivered + 1, slot.revision + 1);
    assert Outstanding(s, id)[1..] == QueuedRevisions(s.core.queue, id);
  }

  lemma AcceptOwnSteady(s: State, id: SlotId)
    requires SlotsOk(s.core) && Steady(s, id) && s.flight.Sending? && s.flight.sent.event.slot == id
    requires Current(Complete(s, Accepted).core, id)
    ensures var t := Complete(s, Accepted); Steady(t, id) && Continues(s, t, id)
  {
    var t := Complete(s, Accepted);
    FlightIsNext(s, id);
    var delivered := s.core.slots[id].delivered;
    assert t.core.slots[id].delivered == delivered + 1;
    assert Outstanding(t, id) == QueuedRevisions(s.core.queue, id);
    assert t.accepted[..|t.accepted| - 1] == s.accepted;
    assert Range(delivered + 1, delivered + 2) == [delivered + 1];
  }

  lemma AcceptOtherSteady(s: State, id: SlotId)
    requires Steady(s, id) && !s.flight.Idle? && FlightRevisions(s.flight, id) == []
    requires Current(Complete(s, Accepted).core, id)
    ensures var t := Complete(s, Accepted); Steady(t, id) && Continues(s, t, id)
  {
    var t := Complete(s, Accepted);
    assert t.core.slots[id] == s.core.slots[id];
    assert Outstanding(t, id) == Outstanding(s, id);
    if s.flight.Sending? {
      assert t.accepted[..|t.accepted| - 1] == s.accepted;
    }
  }

  lemma SelectSteady(s: State, step: Step, id: SlotId)
    requires SlotsOk(s.core) && Steady(s, id) && Possible(s, step)
    requires step.SelectQueued? || step.SelectScanned? || step.SelectNothing?
    ensures Steady(Effect(s, step), id)
  {
    SameSlotsReviveNone(s.core, Effect(s, step).core);
    if step.SelectQueued? {
      SelectQueuedSteady(s, id);
    } else {
      NoQueuedOutstanding(s, id);
    }
  }

  lemma RegistrationSteady(s: State, d: Core, id: SlotId)
    requires Steady(s, id) && Current(d, id) && d.slots[id] == s.core.slots[id]
    requires d.queue == s.core.queue && d.epoch == s.core.epoch
    requires d.enabled && d.live == s.core.live && d.recovering == s.core.recovering
    ensures Steady(s.(core := d), id)
  {
  }

  lemma RegistrationStepSteady(s: State, step: Step, id: SlotId)
    requires SlotsOk(s.core) && Steady(s, id) && Possible(s, step) && Current(Effect(s, step).core, id)
    requires step.Prepared? || step.Activated? || step.Retired? || step.Removed? || step.Enabled? || step.Stopped?
    ensures Steady(Effect(s, step), id)
  {
    assert SlotOk(s.core, id);
    RegistrationSteady(s, Effect(s, step).core, id);
  }

  lemma SmoothStepContinues(s: State, step: Step, id: SlotId)
    requires FlagsOk(s.core) && SlotsOk(s.core) && Steady(s, id) && Smooth(s, step, id)
    ensures Steady(Apply(s, step), id) && Continues(s, Apply(s, step), id)
  {
    if Possible(s, step) {
      match step
      case Updated(other, encoded) =>
        if other == id {
          UpdateSteady(s, encoded, id);
        } else {
          UpdateOtherSteady(s, other, encoded, id);
        }
      case Completed(_) =>
        if FlightRevisions(s.flight, id) == [] {
          AcceptOtherSteady(s, id);
        } else {
          AcceptOwnSteady(s, id);
        }
      case SelectQueued => SelectSteady(s, step, id);
      case SelectScanned(_) => SelectSteady(s, step, id);
      case SelectNothing(_) => SelectSteady(s, step, id);
      case _ => RegistrationStepSteady(s, step, id);
    }
  }

  lemma ContinuesJoin(s: State, m: State, t: State, id: SlotId)
    requires id in s.core.slots && id in m.core.slots && id in t.core.slots
    requires Continues(s, m, id) && Continues(m, t, id)
    ensures Continues(s, t, id)
  {
    RangeJoin(s.core.slots[id].delivered + 1, m.core.slots[id].delivered + 1, t.core.slots[id].delivered + 1);
  }

  lemma {:induction false} SmoothRunContinues(s: State, steps: seq<Step>, id: SlotId)
    requires Inv(s) && Steady(s, id) && SmoothRun(s, steps, id)
    ensures Inv(After(s, steps)) && Steady(After(s, steps), id) && Continues(s, After(s, steps), id)
    decreases |steps|
  {
    if steps != [] {
      var shorter, last := steps[..|steps| - 1], steps[|steps| - 1];
      SmoothRunContinues(s, shorter, id);
      var m := After(s, shorter);
      SmoothStepContinues(m, last, id);
      StepKeepsInv(m, last);
      ContinuesJoin(s, m, Apply(m, last), id);
    }
  }

  /**
   Along any stretch in which no send fails, the ring does not overflow and the slot stays current, the
   stream takes exactly the revisions that follow the last delivered one, each once and in order, and the
   rest are on their way in order.
   */
  lemma NothingLostBetweenFailures(capacity: nat, before: seq<Step>, steps: seq<Step>, id: SlotId)
    requires 1 <= capacity
    requires Steady(After(Start(capacity), before), id)
    requires SmoothRun(After(Start(capacity), before), steps, id)
    ensures var s := After(Start(capacity), before);
            var t := After(s, steps);
            Steady(t, id) && Continues(s, t, id)
  {
    RunKeepsInv(capacity, before);
    SmoothRunContinues(After(Start(capacity), before), steps, id);
  }

  /** Such a stretch can start in any ready state. */
  lemma ReadyIsSteady(capacity: nat, steps: seq<Step>, id: SlotId)
    requires 1 <= capacity
    requires Ready(After(Start(capacity), steps).core) && Current(After(Start(capacity), steps).core, id)
    ensures Steady(After(Start(capacity), steps), id)
  {
    RunKeepsInv(capacity, steps);
    assert SlotOk(After(Start(capacity), steps).core, id);
  }
}
