/**
 How the alarm worker recovers: after a failure or a full ring everything is sent again before it reports "ready", the scan
 starves no registration, and a healthy stream always brings it to "ready".
 */
module AlarmReconciliation {
  import opened AlarmEncoding
  import opened AlarmCore
  import opened AlarmDelivery
  import opened AlarmConvergence

  lemma {:induction false} Joined(s: State, before: seq<Step>, more: seq<Step>)
    ensures After(s, before + more) == After(After(s, before), more)
    decreases |more|
  {
    if more == [] {
      assert before + more == before;
    } else {
      Joined(s, before, more[..|more| - 1]);
      assert (before + more)[..|before + more| - 1] == before + more[..|more| - 1];
    }
  }

  // ---- everything again after a failure ----

  /** A send or a ping fails, or a change of a registration in charge finds the ring full. */
  ghost predicate Disrupts(s: State, step: Step) {
    match step
    case Completed(result) => !s.flight.Idle? && !result.Accepted?
    case Updated(id, encoded) =>
      && s.core.enabled && !s.core.stopping && Current(s.core, id) && s.core.slots[id].latest != encoded
      && |s.core.queue| == s.core.capacity
    case _ => false
  }

  /** The log and the epoch only grow. */
  ghost predicate Later(s: State, t: State) {
    s.core.epoch <= t.core.epoch && s.accepted <= t.accepted
  }

  lemma StepIsLater(s: State, step: Step)
    ensures Later(s, Apply(s, step))
  {
    hide StaleCount, CurrentIn;
  }

  lemma {:induction false} RunIsLater(s: State, steps: seq<Step>)
    ensures Later(s, After(s, steps))
    decreases |steps|
  {
    if steps != [] {
      RunIsLater(s, steps[..|steps| - 1]);
      hide Apply;
      StepIsLater(After(s, steps[..|steps| - 1]), steps[|steps| - 1]);
    }
  }

  lemma DisruptionStartsAnew(s: State, step: Step)
    requires FlagsOk(s.core) && Disrupts(s, step)
    ensures Apply(s, step).core.epoch > s.core.epoch && Apply(s, step).accepted == s.accepted
  {
    if step.Updated? {
      var next := Record(s.core, step.id, step.encoded);
      assert Current(next, step.id);
    }
  }

  /**
   Once a send has failed or the ring has overflowed, "ready" means that the stream has since taken the last state of every
   registration in charge again.
   */
  lemma ReadyMeansSentAgain(capacity: nat, before: seq<Step>, step: Step, more: seq<Step>, id: SlotId)
    requires 1 <= capacity && Disrupts(After(Start(capacity), before), step)
    requires Ready(After(Start(capacity), before + [step] + more).core) && InCharge(Told(before + [step] + more), id)
    ensures var s, t := After(Start(capacity), before), After(Start(capacity), before + [step] + more);
            && s.accepted <= t.accepted && LastOf(t.accepted, id) >= |s.accepted|
            && t.accepted[LastOf(t.accepted, id)].event.state == Told(before + [step] + more).entries[id].state
  {
    var s, t := After(Start(capacity), before), After(Start(capacity), before + [step] + more);
    RunKeepsInv(capacity, before);
    ReadyMeansDelivered(capacity, before + [step] + more, id);
    DisruptionStartsAnew(s, step);
    assert After(Start(capacity), before + [step]) == Apply(s, step) by {
      assert (before + [step])[..|before|] == before;
    }
    Joined(Start(capacity), before + [step], more);
    RunIsLater(Apply(s, step), more);
    assert forall k | 0 <= k < |s.accepted| :: t.accepted[k] == s.accepted[k] && s.accepted[k].epoch <= s.core.epoch;
  }

  // ---- what the status says about the stream ----

  datatype Link = Link(live: bool, recovering: bool)

  /** What a step in state s says about the connection, and whether the worker still has to send everything again. */
  ghost function Heard(l: Link, s: State, step: Step): Link {
    if Disrupts(s, step) then Link(l.live && !(step.Completed? && step.result.Unavailable?), true)
    else if step.Completed? && !s.flight.Idle? then l.(live := true)
    else if step.SelectNothing? && l.live && Possible(s, step) then l.(recovering := false)
    else l
  }

  ghost function LinkOf(capacity: nat, steps: seq<Step>): Link {
    if steps == [] then Link(false, true)
    else Heard(LinkOf(capacity, steps[..|steps| - 1]), After(Start(capacity), steps[..|steps| - 1]), steps[|steps| - 1])
  }

  lemma StepTellsLink(s: State, step: Step)
    ensures var c := Apply(s, step).core;
            Link(c.live, c.recovering) == Heard(Link(s.core.live, s.core.recovering), s, step)
  {
    if Possible(s, step) && step.Updated? && !Ignored(s.core, step.id, step.encoded) {
      SameCurrent(s.core, step.id, step.encoded);
    }
    hide StaleCount, CurrentIn, Eligible;
  }

  lemma SameUse(c: Core, d: Core, id: SlotId)
    requires c.slots.Keys == d.slots.Keys
    requires forall j | j in c.slots :: c.slots[j].name == d.slots[j].name && c.slots[j].Usable() == d.slots[j].Usable()
    ensures Current(d, id) <==> Current(c, id)
  {
    assert forall j :: j in c.slots <==> j in d.slots;
  }

  lemma SameCurrent(c: Core, id: SlotId, encoded: Stored)
    requires id in c.slots
    ensures Current(Record(c, id, encoded), id) <==> Current(c, id)
  {
    SameUse(c, Record(c, id, encoded), id);
  }

  /**
   In every run the worker holds the stream for connected exactly if it was last answered, a refusal being an answer only
   to one who was connected; and it is reconciling exactly if nothing has found all settled and the stream connected since
   the start, the last failure and the last overflow.
   */
  lemma {:induction false} LinkIsKnown(capacity: nat, steps: seq<Step>)
    ensures var c := After(Start(capacity), steps).core; LinkOf(capacity, steps) == Link(c.live, c.recovering)
    decreases |steps|
  {
    if steps != [] {
      LinkIsKnown(capacity, steps[..|steps| - 1]);
      hide Apply, Heard;
      StepTellsLink(After(Start(capacity), steps[..|steps| - 1]), steps[|steps| - 1]);
    }
  }

  // ---- no starvation ----

  /** The slot has something to send, before and after every step. */
  ghost predicate EligibleThroughout(s: State, steps: seq<Step>, id: SlotId) {
    Eligible(After(s, steps).core, id) && (steps == [] || EligibleThroughout(s, steps[..|steps| - 1], id))
  }

  ghost predicate Passed(a: SlotId, last: SlotId, b: SlotId) {
    last == a || (NoLater(a, last, b) && last != b)
  }

  lemma ScanPasses(u: State, step: Step, a: SlotId, b: SlotId)
    requires Eligible(u.core, b) && Passed(a, u.core.lastId, b) && step != SelectScanned(b) && a != b
    ensures Passed(a, Apply(u, step).core.lastId, b)
    ensures !Possible(u, SelectScanned(a))
  {
    hide StaleCount, CurrentIn;
  }

  /** Between two scans of one registration every other one that has something to send throughout is scanned. */
  lemma {:induction false} NoStarvation(s: State, steps: seq<Step>, a: SlotId, b: SlotId)
    requires s.core.lastId == a != b && EligibleThroughout(s, steps, b) && SelectScanned(b) !in steps
    ensures Passed(a, After(s, steps).core.lastId, b) && !Possible(After(s, steps), SelectScanned(a))
    decreases |steps|
  {
    hide Apply, Eligible, Passed;
    if steps == [] {
      assert Passed(a, a, b) by { StartsPassed(a, b); }
      ScanPasses(s, Stopped, a, b);
    } else {
      NoStarvation(s, steps[..|steps| - 1], a, b);
      ScanPasses(After(s, steps[..|steps| - 1]), steps[|steps| - 1], a, b);
      ScanPasses(After(s, steps), Stopped, a, b);
    }
  }

  lemma StartsPassed(a: SlotId, b: SlotId)
    ensures Passed(a, a, b)
  {
  }

  // ---- progress ----

  /** A step of the worker, the stream taking what it is sent. */
  predicate Healthy(step: Step) {
    step.SelectQueued? || step.SelectScanned? || step.SelectNothing? || step == Completed(Accepted)
  }

  ghost function Owed(c: Core): set<SlotId> {
    set id | id in c.slots && Eligible(c, id)
  }

  lemma First(c: Core, among: set<SlotId>) returns (id: SlotId)
    requires among != {}
    ensures id in among && forall j | j in among :: NoLater(c.lastId, id, j)
    decreases |among|
  {
    id :| id in among;
    if among != {id} {
      assert among == (among - {id}) + {id};
      var other := First(c, among - {id});
      if !NoLater(c.lastId, id, other) {
        id := other;
      }
    }
  }

  /** Sending what was selected, successfully, leaves less to do. */
  lemma DeliveredOwesLess(s: State)
    requires Inv(s) && s.flight.Sending?
    ensures var t := Apply(s, Completed(Accepted));
            && Owed(t.core) <= Owed(s.core) && t.core.queue == s.core.queue && t.flight.Idle?
            && t.core.enabled == s.core.enabled && t.core.stopping == s.core.stopping
            && (s.flight.sent.epoch == s.core.epoch && s.flight.sent.event.slot in s.core.slots
                && s.flight.sent.event.revision == s.core.slots[s.flight.sent.event.slot].revision
                ==> s.flight.sent.event.slot !in Owed(t.core))
            && forall id :: Current(t.core, id) <==> Current(s.core, id)
  {
    var c, d := s.core, Apply(s, Completed(Accepted)).core;
    forall id
      ensures Current(d, id) <==> Current(c, id)
      ensures id in Owed(d) ==> id in Owed(c)
    {
      DeliverKeepsCurrent(c, s.flight.sent.event, s.flight.sent.epoch, id);
      if id in c.slots {
        assert SlotOk(c, id);
      }
      assert FlightOk(s);
    }
  }

  lemma DeliverKeepsCurrent(c: Core, e: Event, epoch: nat, id: SlotId)
    ensures Current(Deliver(c, e, epoch), id) <==> Current(c, id)
  {
    SameUse(c, Deliver(c, e, epoch), id);
  }

  lemma Two(s: State, a: Step, b: Step)
    ensures After(s, [a, b]) == Apply(Apply(s, a), b)
  {
    hide Apply;
    assert [a, b][..1] == [a] && [a][..0] == [];
    assert After(s, [a]) == Apply(s, a);
  }

  /** One round of the worker: it sends something, and what is left to do is less. */
  lemma OneRound(s: State) returns (round: seq<Step>)
    requires Inv(s) && WorkerReady(s) && (HasQueued(s.core) || Owed(s.core) != {})
    ensures |round| == 2 && Healthy(round[0]) && Healthy(round[1])
    ensures var t := After(s, round);
            && Inv(t) && WorkerReady(t) && (forall id :: Current(t.core, id) <==> Current(s.core, id))
            && |t.core.queue| + |Owed(t.core)| < |s.core.queue| + |Owed(s.core)|
  {
    var select := SelectQueued;
    if !HasQueued(s.core) {
      var id := First(s.core, Owed(s.core));
      select := SelectScanned(id);
    }
    var u := Apply(s, select);
    SelectionOwes(s, select);
    round := [select, Completed(Accepted)];
    Two(s, select, Completed(Accepted));
    StepKeepsInv(s, select);
    StepKeepsInv(u, Completed(Accepted));
    DeliveredOwesLess(u);
    var t := After(s, round);
    hide Inv, Apply, Owed, HasQueued;
    Fewer(Owed(t.core), Owed(u.core));
    if select.SelectScanned? {
      Fewer(Owed(t.core), Owed(u.core) - {select.id});
    }
  }

  lemma Fewer(a: set<SlotId>, b: set<SlotId>)
    requires a <= b
    ensures |a| <= |b|
  {
    assert b == a + (b - a);
  }

  lemma SelectionOwes(s: State, select: Step)
    requires Possible(s, select) && (select.SelectQueued? || select.SelectScanned?)
    ensures var u := Apply(s, select);
            && u.flight.Sending? && u.core == s.core.(queue := u.core.queue, lastId := u.core.lastId)
            && Owed(u.core) == Owed(s.core)
            && (select.SelectQueued? ==> |u.core.queue| < |s.core.queue|)
            && (select.SelectScanned? ==>
                  |u.core.queue| <= |s.core.queue| && select.id in Owed(s.core)
                  && u.flight.sent == Sent(SlotEvent(s.core, select.id), s.core.epoch))
  {
  }

  /** With nothing left to send, the worker asks the stream for a sign of life and is ready. */
  lemma SettledBecomesReady(s: State) returns (round: seq<Step>)
    requires Inv(s) && WorkerReady(s) && !HasQueued(s.core) && Owed(s.core) == {} && exists id :: Current(s.core, id)
    ensures (forall i | 0 <= i < |round| :: Healthy(round[i])) && Ready(After(s, round).core)
  {
    round := [SelectNothing(true), Completed(Accepted), SelectNothing(false)];
    forall id
      ensures !Eligible(s.core, id)
    {
      assert id !in Owed(s.core);
    }
    var u := s.(core := TakeNothing(s.core), flight := Pinging);
    var w := u.(core := u.core.(live := true), flight := Idle);
    assert Apply(s, SelectNothing(true)) == u && Apply(u, Completed(Accepted)) == w;
    SameSlotsOwe(s.core, w.core);
    Two(s, SelectNothing(true), Completed(Accepted));
    assert round[..2] == [SelectNothing(true), Completed(Accepted)];
    assert After(s, round) == Apply(w, SelectNothing(false));
    SameSlotsOwe(s.core, After(s, round).core);
    assert forall id | Current(After(s, round).core, id) :: !Eligible(After(s, round).core, id);
  }

  lemma SameSlotsOwe(c: Core, d: Core)
    requires d.slots == c.slots && d.epoch == c.epoch
    ensures forall id :: Current(c, id) <==> Current(d, id)
    ensures forall id :: Eligible(c, id) <==> Eligible(d, id)
  {
  }

  /**
   From every reachable moment at which the worker is about to look for work and some registration is in charge, the worker
   alone comes to "ready" if the stream takes what it is sent.
   */
  lemma {:induction false} HealthyStreamMakesReady(s: State) returns (steps: seq<Step>)
    requires Inv(s) && WorkerReady(s) && exists id :: Current(s.core, id)
    ensures (forall i | 0 <= i < |steps| :: Healthy(steps[i])) && Ready(After(s, steps).core)
    decreases |s.core.queue| + |Owed(s.core)|
  {
    if HasQueued(s.core) || Owed(s.core) != {} {
      var round := OneRound(s);
      var rest := HealthyStreamMakesReady(After(s, round));
      steps := round + rest;
      Joined(s, round, rest);
    } else {
      steps := SettledBecomesReady(s);
    }
  }
}
