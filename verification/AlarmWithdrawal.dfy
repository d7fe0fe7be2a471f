/**
 A run in which the worker reports "ready" although the last event of a name is not the current state:
 a replacement is delivered and then withdrawn while the registration it replaced is still active.
 */
module AlarmWithdrawal {
  import opened AlarmEncoding
  import opened AlarmCore
  import opened AlarmDelivery
  import opened AlarmConvergence

  lemma Snoc(s: State, steps: seq<Step>, step: Step)
    ensures After(s, steps + [step]) == Apply(After(s, steps), step)
  {
    assert (steps + [step])[..|steps|] == steps;
  }

  ghost function Delivered(name: string, state: Stored): Slot {
    Slot(name, state, 1, 1, 1, true, false, false)
  }

  lemma PrepareFirst(name: string, a: Stored) returns (steps: seq<Step>)
    ensures After(Start(1), steps)
            == State(Core(1, map[1 := Slot(name, a, 1, 0, 0, true, false, true)], [], 1, 0, 1, true, false, true, false), Idle, [], [])
  {
    var s0 := Start(1);
    var s1 := Apply(s0, Enabled);
    Snoc(s0, [], Enabled);
    var s2 := Apply(s1, Prepared(name, a));
    Snoc(s0, [Enabled], Prepared(name, a));
    steps := [Enabled, Prepared(name, a)];
    assert steps == [Enabled] + [Prepared(name, a)];
    assert s2.core.slots == map[1 := Slot(name, a, 1, 0, 0, false, false, true)];
    var s3 := Apply(s2, Activated(1));
    Snoc(s0, steps, Activated(1));
    steps := steps + [Activated(1)];
    assert s3.core.slots == map[1 := Slot(name, a, 1, 0, 0, true, false, true)];
  }

  /** Registration 1 prepared, activated and delivered. */
  lemma DeliverFirst(name: string, a: Stored) returns (steps: seq<Step>)
    ensures var e := Sent(Event(1, name, a, 1), 1);
            After(Start(1), steps) == State(Core(1, map[1 := Delivered(name, a)], [], 1, 1, 1, true, false, true, true),
                                            Idle, [e], [e])
  {
    steps := PrepareFirst(name, a);
    var s0 := Start(1);
    var s3 := After(s0, steps);
    hide After;
    assert ScanPick(s3.core, 1);
    var s4 := Apply(s3, SelectScanned(1));
    Snoc(s0, steps, SelectScanned(1));
    steps := steps + [SelectScanned(1)];
    var e := Sent(Event(1, name, a, 1), 1);
    assert s4.flight == Sending(e) && s4.attempts == [e];
    var s5 := Apply(s4, Completed(Accepted));
    Snoc(s0, steps, Completed(Accepted));
    steps := steps + [Completed(Accepted)];
    assert s5.core.slots == map[1 := Delivered(name, a)];
    assert s5.accepted == [e];
  }

  /** Registration 2 of the same name prepared, activated and delivered. */
  lemma DeliverSecond(name: string, a: Stored, b: Stored) returns (steps: seq<Step>)
    ensures var e, f := Sent(Event(1, name, a, 1), 1), Sent(Event(2, name, b, 1), 1);
            After(Start(1), steps)
            == State(Core(1, map[1 := Delivered(name, a), 2 := Delivered(name, b)], [], 2, 2, 1, true, false, true, true),
                     Idle, [e, f], [e, f])
  {
    steps := DeliverFirst(name, a);
    var s0 := After(Start(1), steps);
    var s1 := Apply(s0, Prepared(name, b));
    Snoc(Start(1), steps, Prepared(name, b));
    steps := steps + [Prepared(name, b)];
    assert s1.core.slots == map[1 := Delivered(name, a), 2 := Slot(name, b, 1, 0, 0, false, false, true)];
    var s2 := Apply(s1, Activated(2));
    Snoc(Start(1), steps, Activated(2));
    steps := steps + [Activated(2)];
    assert s2.core.slots == map[1 := Delivered(name, a), 2 := Slot(name, b, 1, 0, 0, true, false, true)];
    assert !Current(s2.core, 1);
    assert ScanPick(s2.core, 2);
    var s3 := Apply(s2, SelectScanned(2));
    Snoc(Start(1), steps, SelectScanned(2));
    steps := steps + [SelectScanned(2)];
    var f := Sent(Event(2, name, b, 1), 1);
    assert s3.flight == Sending(f);
    assert Current(s3.core, 2);
    var s4 := Apply(s3, Completed(Accepted));
    Snoc(Start(1), steps, Completed(Accepted));
    steps := steps + [Completed(Accepted)];
    assert s4.core.slots == map[1 := Delivered(name, a), 2 := Delivered(name, b)];
  }

  /** Ready after withdrawing registration 2, and the last event of the name is registration 2's. */
  lemma ReadyWithoutNameAgreement(name: string, a: Stored, b: Stored) returns (steps: seq<Step>)
    requires a != b
    ensures var s := After(Start(1), steps); Ready(s.core) && Current(s.core, 1) && !NameAgrees(s, 1)
  {
    steps := DeliverSecond(name, a, b);
    var s0 := After(Start(1), steps);
    assert s0.core.slots[1] == Delivered(name, a) && s0.core.slots[2] == Delivered(name, b);
    assert 2 in s0.core.slots && !Current(s0.core, 1) && !Pending(s0.core, 2);
    assert forall id :: !Eligible(s0.core, id);
    var s1 := Apply(s0, SelectNothing(false));
    Snoc(Start(1), steps, SelectNothing(false));
    steps := steps + [SelectNothing(false)];
    assert s1.core.slots == s0.core.slots && !s1.core.recovering;
    var s2 := Apply(s1, Retired(2));
    Snoc(Start(1), steps, Retired(2));
    steps := steps + [Retired(2)];
    assert s2.core.slots == map[1 := Delivered(name, a), 2 := Delivered(name, b).(active := false, retired := true)];
    assert Current(s2.core, 1);
    assert forall id :: Current(s2.core, id) ==> id == 1;
    assert LastNamed(s2.accepted, name) == 1;
  }
}
