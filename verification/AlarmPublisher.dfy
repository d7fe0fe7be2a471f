/**
 The publisher as it is laid out in memory: a ring of events addressed by head and count, an ordered map of
 slots and, per name, the ordered ids registered under it.  Each method is one lock-held region and is
 proved to do to the abstract core what AlarmCore says.
 */
module AlarmPublishing {
  import opened AlarmEncoding
  import opened AlarmCore

  datatype Prepared = Registered(id: SlotId) | PublisherStopped

  /** What the worker does next: send an event, or ping or wait because nothing is pending. */
  datatype Choice = FromRing(event: Event) | FromScan(event: Event) | Nothing

  /** The state reported by status(). */
  datatype StatusName = Stopped | Staged | Unused | Disconnected | Recovering | ReadyNow

  predicate Ascending(s: seq<nat>) {
    forall i, j | 0 <= i < j < |s| :: s[i] < s[j]
  }

  /** Position of an id in an ascending sequence, or its length. */
  method Find(s: seq<nat>, id: nat) returns (k: nat)
    requires Ascending(s)
    ensures k <= |s|
    ensures k < |s| ==> s[k] == id
    ensures k == |s| ==> id !in s
  {
    k := 0;
    while k < |s| && s[k] != id
      invariant k <= |s|
      invariant forall i | 0 <= i < k :: s[i] != id
    {
      k := k + 1;
    }
  }

  /** An ascending sequence without one of its members. */
  method Erase(s: seq<nat>, id: nat) returns (r: seq<nat>)
    requires Ascending(s)
    ensures Ascending(r)
    ensures forall x :: x in r <==> x in s && x != id
  {
    var k := Find(s, id);
    if k == |s| {
      return s;
    }
    r := s[..k] + s[k + 1..];
    forall x
      ensures x in r <==> x in s && x != id
    {
      if x in s && x != id {
        var i :| 0 <= i < |s| && s[i] == x;
        assert if i < k then r[i] == x else r[i - 1] == x;
      }
    }
  }

  /** The ordered key lists hold exactly the slots, and each name exactly its own. */
  ghost predicate Indexed(slots: map<SlotId, Slot>, ids: seq<SlotId>, names: map<string, seq<SlotId>>, nextId: nat) {
    && Ascending(ids)
    && (forall id :: id in ids <==> id in slots)
    && (forall id | id in slots :: id <= nextId)
    && (forall n | n in names :: Ascending(names[n]))
    && (forall id | id in slots :: slots[id].name in names && id in names[slots[id].name])
    && (forall n, id | n in names && id in names[n] :: id in slots && slots[id].name == n)
  }

  lemma IndexKept(slots: map<SlotId, Slot>, ids: seq<SlotId>, names: map<string, seq<SlotId>>, nextId: nat,
                  id: SlotId, slot: Slot)
    requires Indexed(slots, ids, names, nextId) && id in slots && slot.name == slots[id].name
    ensures Indexed(slots[id := slot], ids, names, nextId)
  {
  }

  lemma IndexFacts(slots: map<SlotId, Slot>, ids: seq<SlotId>, names: map<string, seq<SlotId>>, nextId: nat)
    requires Indexed(slots, ids, names, nextId)
    ensures Ascending(ids) && forall id :: id in ids <==> id in slots
    ensures forall id | id in slots :: id <= nextId
    ensures forall id | id in slots :: slots[id].name in names && Ascending(names[slots[id].name])
  {
  }

  function Under(names: map<string, seq<SlotId>>, name: string): seq<SlotId> {
    if name in names then names[name] else []
  }

  lemma IndexExtended(slots: map<SlotId, Slot>, ids: seq<SlotId>, names: map<string, seq<SlotId>>, nextId: nat, slot: Slot)
    requires Indexed(slots, ids, names, nextId)
    ensures Indexed(slots[nextId + 1 := slot], ids + [nextId + 1],
                    names[slot.name := Under(names, slot.name) + [nextId + 1]], nextId + 1)
  {
    var all, same := ids + [nextId + 1], Under(names, slot.name);
    var more, index := slots[nextId + 1 := slot], names[slot.name := same + [nextId + 1]];
    assert forall i | 0 <= i < |ids| :: ids[i] in ids;
    assert all[|ids|] == nextId + 1;
    SameNameBelow(slots, ids, names, nextId, slot.name);
    forall id | id in more
      ensures more[id].name in index && id in index[more[id].name]
    {
      ListedAgain(slots, ids, names, nextId, slot, id);
    }
    forall n, id | n in index && id in index[n]
      ensures id in more && more[id].name == n
    {
      KnownAgain(slots, ids, names, nextId, slot, n, id);
    }
  }

  lemma SameNameBelow(slots: map<SlotId, Slot>, ids: seq<SlotId>, names: map<string, seq<SlotId>>, nextId: nat, name: string)
    requires Indexed(slots, ids, names, nextId)
    ensures Ascending(Under(names, name)) && forall i | 0 <= i < |Under(names, name)| :: Under(names, name)[i] <= nextId
    ensures Ascending(Under(names, name) + [nextId + 1])
  {
    var same := Under(names, name);
    forall i | 0 <= i < |same|
      ensures same[i] <= nextId
    {
      assert same == names[name] && same[i] in same;
      assert same[i] in slots;
    }
  }

  lemma ListedAgain(slots: map<SlotId, Slot>, ids: seq<SlotId>, names: map<string, seq<SlotId>>, nextId: nat, slot: Slot, id: SlotId)
    requires Indexed(slots, ids, names, nextId) && (id == nextId + 1 || id in slots)
    ensures var index := names[slot.name := Under(names, slot.name) + [nextId + 1]];
            var name := slots[nextId + 1 := slot][id].name;
            name in index && id in index[name]
  {
    var same := Under(names, slot.name);
    if id == nextId + 1 {
      assert (same + [nextId + 1])[|same|] == id;
    } else {
      assert id in names[slots[id].name];
    }
  }

  lemma KnownAgain(slots: map<SlotId, Slot>, ids: seq<SlotId>, names: map<string, seq<SlotId>>, nextId: nat, slot: Slot,
                   n: string, id: SlotId)
    requires Indexed(slots, ids, names, nextId)
    requires if n == slot.name then id in Under(names, n) + [nextId + 1] else n in names && id in names[n]
    ensures var more := slots[nextId + 1 := slot]; id in more && more[id].name == n
  {
    if n == slot.name {
      if id != nextId + 1 {
        assert n in names && id in names[n];
      }
    } else {
      assert id in slots;
    }
  }

  lemma IndexShrunk(slots: map<SlotId, Slot>, ids: seq<SlotId>, names: map<string, seq<SlotId>>, nextId: nat,
                    id: SlotId, rest: seq<SlotId>, same: seq<SlotId>)
    requires Indexed(slots, ids, names, nextId) && id in slots
    requires Ascending(rest) && forall x :: x in rest <==> x in ids && x != id
    requires Ascending(same) && forall x :: x in same <==> x in names[slots[id].name] && x != id
    ensures Indexed(slots - {id}, rest, if same == [] then names - {slots[id].name} else names[slots[id].name := same], nextId)
  {
    var left := slots - {id};
    var index := if same == [] then names - {slots[id].name} else names[slots[id].name := same];
    forall x | x in left
      ensures left[x].name in index && x in index[left[x].name]
    {
      assert x in names[slots[x].name];
      if slots[x].name == slots[id].name {
        assert x in same;
      }
    }
  }

  lemma WrapIsMod(a: nat, n: nat)
    requires 0 < n && a < 2 * n
    ensures a % n == if a < n then a else a - n
  {
    if a >= n {
      assert a == n * 1 + (a - n);
    }
  }

  class AlarmPublisher {
    const ring: array<Event>
    var head: nat
    var count: nat
    var slots: map<SlotId, Slot>
    var ids: seq<SlotId>
    var names: map<string, seq<SlotId>>
    var nextId: nat
    var lastId: nat
    var epoch: nat
    var enabled: bool
    var stopping: bool
    var recovering: bool
    var live: bool

    ghost predicate RingOk()
      reads this
    {
      0 < ring.Length && head < ring.Length && count <= ring.Length
    }

    ghost predicate Valid()
      reads this
    {
      RingOk() && Indexed(slots, ids, names, nextId)
    }

    function At(i: nat): nat
      reads this
      requires RingOk() && i <= ring.Length
    {
      (head + i) % ring.Length
    }

    ghost function Queue(): (q: seq<Event>)
      reads this, ring
      requires RingOk()
      ensures |q| == count
      ensures forall i | 0 <= i < count :: q[i] == ring[At(i)]
    {
      seq(count, i requires 0 <= i < count && RingOk() reads this, ring => ring[At(i)])
    }

    ghost function View(): Core
      reads this, ring
      requires RingOk()
    {
      Core(ring.Length, slots, Queue(), nextId, lastId, epoch, enabled, stopping, recovering, live)
    }

    constructor (entries: nat, blank: Event)
      requires 0 < entries
      ensures Valid() && fresh(ring)
      ensures View() == Fresh(entries)
    {
      ring := new Event[entries](_ => blank);
      head, count := 0, 0;
      slots, ids, names := map[], [], map[];
      nextId, lastId, epoch := 0, 0, 1;
      enabled, stopping, recovering, live := false, false, true, false;
    }

    // ---- ring ----

    method Pop() returns (event: Event)
      requires Valid() && 0 < count
      modifies this`head, this`count
      ensures Valid()
      ensures event == old(Queue())[0] && Queue() == old(Queue())[1..]
    {
      hide Indexed;
      event := ring[head];
      WrapIsMod(head, ring.Length);
      ghost var was := Queue();
      head, count := (head + 1) % ring.Length, count - 1;
      forall i | 0 <= i < count
        ensures Queue()[i] == was[i + 1]
      {
        WrapIsMod(old(head) + 1, ring.Length);
        WrapIsMod(head + i, ring.Length);
        WrapIsMod(old(head) + i + 1, ring.Length);
      }
    }

    method Push(event: Event)
      requires Valid() && count < ring.Length
      modifies this`count, ring
      ensures Valid() && Queue() == old(Queue()) + [event]
    {
      hide Indexed;
      ghost var was := Queue();
      var at := At(count);
      ring[at] := event;
      count := count + 1;
      forall i | 0 <= i < count
        ensures Queue()[i] == (was + [event])[i]
      {
        WrapIsMod(head + i, ring.Length);
        WrapIsMod(head + count - 1, ring.Length);
      }
    }

    method DiscardQueue()
      requires Valid()
      modifies this`head, this`count
      ensures Valid() && Queue() == []
    {
      hide Indexed;
      while 0 < count
        invariant Valid()
      {
        var _ := Pop();
      }
    }

    // ---- registrations ----

    /** The newest usable registration of the slot's name is the slot itself. */
    method IsCurrent(id: SlotId) returns (b: bool)
      requires Valid()
      ensures b == CurrentIn(slots, id)
    {
      if id !in slots || !slots[id].Usable() {
        return false;
      }
      var same := names[slots[id].name];
      assert forall i | 0 <= i < |same| :: same[i] in same;
      var k := |same|;
      while 0 < k && !slots[same[k - 1]].Usable()
        invariant 0 <= k <= |same|
        invariant forall i | k <= i < |same| :: !slots[same[i]].Usable()
      {
        k := k - 1;
      }
      b := 0 < k && same[k - 1] == id;
      NewestDecides(slots, same, k, id);
    }

    method Prepare(name: string, state: AlarmState) returns (r: Prepared, ghost encoded: Stored, ghost truncated: bool)
      requires Valid()
      modifies this`slots, this`ids, this`names, this`nextId
      ensures Valid() && IsEncoding(state, encoded, truncated)
      ensures View() == AlarmCore.Prepare(old(View()), name, encoded)
      ensures if old(stopping) then r == PublisherStopped
              else r == Registered(nextId) && nextId !in old(slots) && slots[nextId].latest == encoded && slots[nextId].name == name
    {
      hide Indexed;
      IndexFacts(slots, ids, names, nextId);
      var stored, cut := Encode(state);
      encoded, truncated := stored, cut;
      if stopping {
        return PublisherStopped, stored, cut;
      }
      IndexExtended(slots, ids, names, nextId, Slot(name, stored, 1, 0, 0, false, false, true));
      nextId := nextId + 1;
      slots := slots[nextId := Slot(name, stored, 1, 0, 0, false, false, true)];
      ids := ids + [nextId];
      names := names[name := Under(names, name) + [nextId]];
      r := Registered(nextId);
    }

    method Activate(id: SlotId)
      requires Valid() && id in slots
      modifies this`slots
      ensures Valid() && View() == AlarmCore.Activate(old(View()), id)
    {
      hide Indexed;
      if !slots[id].retired && !slots[id].active {
        IndexKept(slots, ids, names, nextId, id, slots[id].(active := true, force := true));
        slots := slots[id := slots[id].(active := true, force := true)];
      }
    }

    method Retire(id: SlotId)
      requires Valid() && id in slots
      modifies this`slots
      ensures Valid() && View() == AlarmCore.Retire(old(View()), id)
    {
      hide Indexed;
      IndexKept(slots, ids, names, nextId, id, slots[id].(active := false, retired := true));
      slots := slots[id := slots[id].(active := false, retired := true)];
    }

    method Remove(id: SlotId)
      requires Valid() && id in slots
      modifies this`slots, this`ids, this`names
      ensures Valid() && View() == AlarmCore.Remove(old(View()), id)
    {
      hide Indexed;
      IndexFacts(slots, ids, names, nextId);
      var name := slots[id].name;
      var rest := Erase(ids, id);
      var same := Erase(names[name], id);
      IndexShrunk(slots, ids, names, nextId, id, rest, same);
      slots := slots - {id};
      ids := rest;
      names := if same == [] then names - {name} else names[name := same];
    }

    method Update(id: SlotId, state: AlarmState) returns (ghost encoded: Stored, ghost truncated: bool)
      requires Valid() && id in slots
      modifies this`slots, this`head, this`count, this`epoch, this`recovering, ring
      ensures Valid() && IsEncoding(state, encoded, truncated)
      ensures View() == AlarmCore.Update(old(View()), id, encoded)
      ensures if old(stopping || slots[id].retired) then slots == old(slots) else slots[id].latest == encoded
    {
      hide Indexed;
      var stored, cut := Encode(state);
      encoded, truncated := stored, cut;
      if stopping || slots[id].retired || slots[id].latest == stored {
        return;
      }
      var revision := slots[id].revision + 1;
      IndexKept(slots, ids, names, nextId, id, slots[id].(latest := stored, revision := revision));
      slots := slots[id := slots[id].(latest := stored, revision := revision)];
      if !enabled {
        return;
      }
      assert View() == Record(old(View()), id, stored);
      Enqueue(id);
    }

    /** The transition joins the ring; if the ring is full everything starts over. */
    method Enqueue(id: SlotId)
      requires Valid() && id in slots
      modifies this`head, this`count, this`epoch, this`recovering, ring
      ensures Valid()
      ensures View() == if !Current(old(View()), id) then old(View())
                        else if old(live && !recovering && count < ring.Length) then
                          old(View()).(queue := old(Queue()) + [Event(id, old(slots)[id].name, old(slots)[id].latest, old(slots)[id].revision)])
                        else if old(count == ring.Length) then Restart(old(View()))
                        else old(View())
    {
      hide Indexed;
      var current := IsCurrent(id);
      if current {
        if live && !recovering && count < ring.Length {
          Push(Event(id, slots[id].name, slots[id].latest, slots[id].revision));
        } else if count == ring.Length {
          DiscardQueue();
          epoch, recovering := epoch + 1, true;
        }
      }
    }

    method Enable()
      requires Valid()
      modifies this`enabled
      ensures Valid() && View() == old(View()).(enabled := true)
    {
      hide Indexed;
      enabled := true;
    }

    method Stop()
      requires Valid()
      modifies this`stopping
      ensures Valid() && View() == old(View()).(stopping := true)
    {
      hide Indexed;
      stopping := true;
    }

    // ---- worker ----

    method IsEligible(id: SlotId) returns (b: bool)
      requires Valid()
      ensures b == EligibleIn(slots, epoch, id)
    {
      hide Indexed;
      b := IsCurrent(id);
      if b {
        b := slots[id].force || slots[id].deliveredEpoch != epoch || slots[id].delivered < slots[id].revision;
      }
    }

    /** First position whose id is past the last slot scanned. */
    method UpperBound() returns (k: nat)
      requires Valid()
      ensures k <= |ids|
      ensures forall i | 0 <= i < k :: ids[i] <= lastId
      ensures forall i | k <= i < |ids| :: ids[i] > lastId
    {
      hide Indexed;
      IndexFacts(slots, ids, names, nextId);
      k := 0;
      while k < |ids| && ids[k] <= lastId
        invariant k <= |ids|
        invariant forall i | 0 <= i < k :: ids[i] <= lastId
      {
        k := k + 1;
      }
    }

    /** Rotates through the slots from the one after the last scanned and stops at the first that needs sending. */
    method Scan() returns (found: bool, id: SlotId)
      requires Valid()
      ensures found ==> PickIn(slots, epoch, lastId, id)
      ensures !found ==> forall j :: !EligibleIn(slots, epoch, j)
    {
      hide Indexed, CurrentIn, EligibleIn;
      IndexFacts(slots, ids, names, nextId);
      id := 0;
      var start := UpperBound();
      var at := start;
      var checked := 0;
      while checked < |ids|
        invariant 0 <= checked <= |ids|
        invariant at == if start + checked <= |ids| then start + checked else start + checked - |ids|
        invariant forall i | start <= i < |ids| && i - start < checked :: !EligibleIn(slots, epoch, ids[i])
        invariant forall i | 0 <= i < start && i + |ids| - start < checked :: !EligibleIn(slots, epoch, ids[i])
      {
        if at == |ids| {
          at := 0;
        }
        var eligible := IsEligible(ids[at]);
        if eligible {
          ScanStopsRight(slots, epoch, lastId, ids, start, at);
          return true, ids[at];
        }
        at := at + 1;
        checked := checked + 1;
      }
      NoneLeft(slots, epoch, ids);
      found := false;
    }

    /** Takes transitions off the ring until one belongs to a current slot. */
    method TakeFromRing() returns (found: bool, event: Event)
      requires Valid() && 0 < count
      modifies this`head, this`count
      ensures Valid()
      ensures found == HasQueued(old(View()))
      ensures found ==> event == QueuedEvent(old(View())) && View() == TakeQueued(old(View()))
      ensures !found ==> View() == old(View()).(queue := [])
    {
      hide Indexed, CurrentIn, StaleCount;
      ghost var was := View();
      ghost var n := 0;
      found := false;
      event := ring[head];
      while 0 < count && !found
        invariant Valid() && n <= |was.queue|
        invariant View() == was.(queue := was.queue[n..])
        invariant forall i | 0 <= i < n :: !found || i < n - 1 ==> !Current(was, was.queue[i].slot)
        invariant found ==> 0 < n && event == was.queue[n - 1] && Current(was, event.slot)
        decreases count, !found
      {
        event := Pop();
        assert was.queue[n..][1..] == was.queue[n + 1..];
        n := n + 1;
        found := IsCurrent(event.slot);
      }
      StaleCountIs(was, was.queue, if found then n - 1 else n);
    }

    /** The part of the worker loop that runs before the lock is released for a send or a ping. */
    method Select() returns (choice: Choice)
      requires Valid() && enabled && !stopping
      modifies this`head, this`count, this`lastId, this`recovering
      ensures Valid()
      ensures HasQueued(old(View())) ==>
                choice == FromRing(QueuedEvent(old(View()))) && View() == TakeQueued(old(View()))
      ensures !HasQueued(old(View())) ==>
                match choice
                case FromRing(_) => false
                case FromScan(e) => ScanPick(old(View()), e.slot) && e == SlotEvent(old(View()), e.slot)
                                    && View() == TakeScanned(old(View()), e.slot)
                case Nothing => (forall id :: !Eligible(old(View()), id)) && View() == TakeNothing(old(View()))
    {
      hide Indexed, StaleCount;
      ghost var was := View();
      if 0 < count {
        var queued, event := TakeFromRing();
        if queued {
          return FromRing(event);
        }
      } else {
        StaleCountIs(was, was.queue, 0);
      }
      ScanIs(was);
      var found, id := Scan();
      if found {
        lastId := id;
        return FromScan(Event(id, slots[id].name, slots[id].latest, slots[id].revision));
      }
      if live {
        recovering := false;
      }
      choice := Nothing;
    }

    /** The part of the worker loop that runs once the lock is held again. */
    method Complete(choice: Choice, sendingEpoch: nat, result: SendResult)
      requires Valid()
      modifies this`slots, this`head, this`count, this`epoch, this`recovering, this`live
      ensures Valid()
      ensures View() == if !result.Accepted? then Fail(old(View()), result)
                        else if choice.Nothing? then old(View()).(live := true)
                        else Deliver(old(View()), choice.event, sendingEpoch)
    {
      hide Indexed;
      if result.Accepted? {
        if choice.Nothing? {
          live := true;
        } else {
          Accept(choice.event, sendingEpoch);
        }
      } else {
        if result.Unavailable? {
          live := false;
        }
        DiscardQueue();
        epoch, recovering := epoch + 1, true;
      }
    }

    /** An accepted event counts for its slot if the slot is still current. */
    method Accept(event: Event, sendingEpoch: nat)
      requires Valid()
      modifies this`slots, this`live
      ensures Valid() && View() == Deliver(old(View()), event, sendingEpoch)
    {
      hide Indexed;
      live := true;
      var current := IsCurrent(event.slot);
      if current {
        var slot := slots[event.slot];
        var next := slot.(delivered := Max(slot.delivered, event.revision), deliveredEpoch := sendingEpoch, force := false);
        IndexKept(slots, ids, names, nextId, event.slot, next);
        slots := slots[event.slot := next];
      }
    }

    /** The reported state: "stopped", "staged", "idle", "disconnected", "recovering" or "ready". */
    method Status() returns (state: StatusName)
      requires Valid()
      ensures state == ReadyNow <==> Ready(View())
      ensures state == Stopped <==> stopping
      ensures state == Staged <==> !stopping && !enabled
      ensures state == Unused <==> !stopping && enabled && forall id :: !Current(View(), id)
      ensures state == Disconnected <==> !stopping && enabled && !live && exists id :: Current(View(), id)
      ensures state == Recovering <==> !stopping && enabled && live && !Ready(View()) && exists id :: Current(View(), id)
    {
      hide Indexed, CurrentIn;
      IndexFacts(slots, ids, names, nextId);
      var active, pending := false, false;
      var i := 0;
      while i < |ids|
        invariant 0 <= i <= |ids|
        invariant active <==> exists k | 0 <= k < i :: CurrentIn(slots, ids[k])
        invariant pending <==> exists k | 0 <= k < i :: EligibleIn(slots, epoch, ids[k])
      {
        var current := IsCurrent(ids[i]);
        var eligible := IsEligible(ids[i]);
        active := active || current;
        pending := pending || eligible;
        i := i + 1;
      }
      CountedRight(slots, epoch, ids);
      state := if stopping then Stopped else if !enabled then Staged else if !active then Unused
      else if !live then Disconnected else if recovering || pending || count > 0 then Recovering else ReadyNow;
      ReadyIs(View(), active, pending);
    }
  }

  lemma ReadyIs(c: Core, active: bool, pending: bool)
    requires active <==> exists id :: CurrentIn(c.slots, id)
    requires pending <==> exists id :: EligibleIn(c.slots, c.epoch, id)
    ensures Ready(c) <==> !c.stopping && c.enabled && active && c.live && !c.recovering && !pending && c.queue == []
    ensures active <==> exists id :: Current(c, id)
  {
    if id :| Current(c, id) {
      assert CurrentIn(c.slots, id);
    }
    if id :| CurrentIn(c.slots, id) {
      assert Current(c, id);
    }
    if id :| Current(c, id) && Pending(c, id) {
      assert EligibleIn(c.slots, c.epoch, id);
    }
    if id :| EligibleIn(c.slots, c.epoch, id) {
      assert Current(c, id) && Pending(c, id);
    }
  }

  lemma NewestDecides(slots: map<SlotId, Slot>, same: seq<SlotId>, k: nat, id: SlotId)
    requires id in slots && slots[id].Usable() && id in same && Ascending(same)
    requires forall j :: j in same <==> j in slots && slots[j].name == slots[id].name
    requires k <= |same| && (forall i | 0 <= i < |same| :: same[i] in slots)
    requires forall i | k <= i < |same| :: !slots[same[i]].Usable()
    requires 0 < k ==> slots[same[k - 1]].Usable()
    ensures (0 < k && same[k - 1] == id) <==> CurrentIn(slots, id)
  {
    var at :| 0 <= at < |same| && same[at] == id;
    if 0 < k && same[k - 1] == id {
      forall j | j in slots && j > id && slots[j].name == slots[id].name
        ensures !slots[j].Usable()
      {
        assert j in same;
        var i :| 0 <= i < |same| && same[i] == j;
        assert i >= k;
      }
    } else {
      assert at < k - 1;
      assert same[k - 1] in same && same[k - 1] > id;
    }
  }

  predicate EligibleIn(slots: map<SlotId, Slot>, epoch: nat, id: SlotId) {
    CurrentIn(slots, id) && SlotPending(slots[id], epoch)
  }

  ghost predicate PickIn(slots: map<SlotId, Slot>, epoch: nat, last: nat, id: SlotId) {
    EligibleIn(slots, epoch, id) && forall j :: EligibleIn(slots, epoch, j) ==> NoLater(last, id, j)
  }

  lemma ScanStopsRight(slots: map<SlotId, Slot>, epoch: nat, last: nat, ids: seq<SlotId>, start: nat, at: nat)
    requires Ascending(ids) && (forall id :: id in ids <==> id in slots) && start <= |ids| && at < |ids|
    requires forall i | 0 <= i < start :: ids[i] <= last
    requires forall i | start <= i < |ids| :: ids[i] > last
    requires EligibleIn(slots, epoch, ids[at])
    requires at >= start ==> forall i | start <= i < at :: !EligibleIn(slots, epoch, ids[i])
    requires at < start ==> forall i | start <= i < |ids| :: !EligibleIn(slots, epoch, ids[i])
    requires at < start ==> forall i | 0 <= i < at :: !EligibleIn(slots, epoch, ids[i])
    ensures PickIn(slots, epoch, last, ids[at])
  {
    forall j | EligibleIn(slots, epoch, j)
      ensures NoLater(last, ids[at], j)
    {
      assert j in ids;
      var i :| 0 <= i < |ids| && ids[i] == j;
    }
  }

  lemma NoneLeft(slots: map<SlotId, Slot>, epoch: nat, ids: seq<SlotId>)
    requires forall id :: id in ids <==> id in slots
    requires forall i | 0 <= i < |ids| :: !EligibleIn(slots, epoch, ids[i])
    ensures forall j :: !EligibleIn(slots, epoch, j)
  {
    forall j
      ensures !EligibleIn(slots, epoch, j)
    {
      if j in ids {
        var i :| 0 <= i < |ids| && ids[i] == j;
      }
    }
  }

  lemma CountedRight(slots: map<SlotId, Slot>, epoch: nat, ids: seq<SlotId>)
    requires forall id :: id in ids <==> id in slots
    ensures (exists k | 0 <= k < |ids| :: CurrentIn(slots, ids[k])) <==> exists id :: CurrentIn(slots, id)
    ensures (exists k | 0 <= k < |ids| :: EligibleIn(slots, epoch, ids[k])) <==> exists id :: EligibleIn(slots, epoch, id)
  {
    if id :| CurrentIn(slots, id) {
      assert id in ids;
    }
    if id :| EligibleIn(slots, epoch, id) {
      assert id in ids;
    }
  }

  lemma ScanIs(c: Core)
    ensures forall id :: Eligible(c, id) <==> EligibleIn(c.slots, c.epoch, id)
    ensures forall id :: ScanPick(c, id) <==> PickIn(c.slots, c.epoch, c.lastId, id)
  {
    assert forall id :: Eligible(c, id) <==> EligibleIn(c.slots, c.epoch, id);
  }

  lemma {:induction false} StaleCountIs(c: Core, q: seq<Event>, n: nat)
    requires n <= |q|
    requires forall i | 0 <= i < n :: !Current(c, q[i].slot)
    requires n < |q| ==> Current(c, q[n].slot)
    ensures StaleCount(c, q) == n
  {
    if n > 0 {
      StaleCountIs(c, q[1..], n - 1);
    }
  }
}
