/** What holds in every run of the registry. */
module RegistryTheorems {
  import opened Basics
  import opened RegistryCore
  import opened RegistryInvariant
  import opened RegistrySteps

  ghost predicate IsRun(run: seq<State>, steps: seq<Step>) {
    && |run| == |steps| + 1 && run[0] == Start
    && forall i | 0 <= i < |steps| :: Possible(run[i], steps[i]) && run[i + 1] == After(run[i], steps[i])
  }

  lemma {:induction false} RunKeepsInv(run: seq<State>, steps: seq<Step>, i: nat)
    requires IsRun(run, steps) && i < |run|
    ensures Inv(run[i])
  {
    if i == 0 {
      assert Held(Start, Start.current, 0) ==> false;
    } else {
      RunKeepsInv(run, steps, i - 1);
      assert Possible(run[i - 1], steps[i - 1]) && run[i] == After(run[i - 1], steps[i - 1]);
      hide Inv, Possible, After;
      StepKeepsInv(run[i - 1], steps[i - 1]);
    }
  }

  // ---- channels ----

  predicate Finished(s: State, p: nat) {
    p < |s.stages| && p < |s.prepared| && s.stages[p] == Closing(|s.prepared[p].retiring|, [])
  }

  /** `onCreate` has run to its end and the peer is still there. */
  predicate Created(s: State, c: ChannelId) {
    c < |s.channels| && s.channels[c].phase.Checked? && !s.channels[c].gone
  }

  lemma ClosedOnceFinished(s: State, p: nat, c: ChannelId)
    requires Inv(s) && Finished(s, p) && Created(s, c) && s.channels[c].reg in s.prepared[p].retiring
    ensures s.channels[c].closed
  {
    hide Structure, Chain;
    var r := s.channels[c].reg;
    var i :| 0 <= i < |s.prepared[p].retiring| && s.prepared[p].retiring[i] == r;
    assert StageOk(s, p) && ChannelOk(s, c);
  }

  /** Whatever the interleaving: once `onCreate` and the retiring `finish` are over, the channel was closed after it was attached. */
  lemma RetiredChannelsAreClosed(run: seq<State>, steps: seq<Step>, i: nat, p: nat, c: ChannelId)
    requires IsRun(run, steps) && i < |run|
    requires Finished(run[i], p) && Created(run[i], c) && run[i].channels[c].reg in run[i].prepared[p].retiring
    ensures run[i].channels[c].closed
  {
    hide Inv, Possible, After;
    RunKeepsInv(run, steps, i);
    ClosedOnceFinished(run[i], p, c);
  }

  predicate AtRest(s: State) {
    s.lock.None? && forall p | 0 <= p < |s.stages| :: s.stages[p].Closing? ==> Finished(s, p)
  }

  lemma OpenMeansCurrent(s: State, c: ChannelId)
    requires Inv(s) && AtRest(s) && Created(s, c) && !s.channels[c].closed
    ensures Held(s, s.current, s.channels[c].reg)
  {
    var r := s.channels[c].reg;
    assert ChannelOk(s, c) && RegOk(s, r);
    if s.regs[r].retirer.Some? {
      var p := s.regs[r].retirer.value;
      assert s.stages[p].Closing? by {
        hide Structure, Linked, Recorded, Channels;
      }
      assert Finished(s, p);
      ClosedOnceFinished(s, p, c);
      assert false;
    }
  }

  /** With no publication under way, the open channels are those of the current snapshot. */
  lemma OpenChannelsAreCurrent(run: seq<State>, steps: seq<Step>, i: nat, c: ChannelId)
    requires IsRun(run, steps) && i < |run| && AtRest(run[i]) && Created(run[i], c) && !run[i].channels[c].closed
    ensures Held(run[i], run[i].current, run[i].channels[c].reg)
  {
    hide Inv, Possible, After, AtRest, Held;
    RunKeepsInv(run, steps, i);
    OpenMeansCurrent(run[i], c);
  }

  /** The fence of every operation: what it lets through belongs to the current snapshot, at any moment. */
  lemma AdmittedIsCurrent(run: seq<State>, steps: seq<Step>, i: nat, c: ChannelId)
    requires IsRun(run, steps) && i < |run| && c < |run[i].channels|
    ensures run[i].channels[c].reg < |run[i].regs|
    ensures Active(run[i], run[i].channels[c].reg) ==> Held(run[i], run[i].current, run[i].channels[c].reg)
    ensures run[i].lock.None? && Held(run[i], run[i].current, run[i].channels[c].reg) ==> Active(run[i], run[i].channels[c].reg)
  {
    RunKeepsInv(run, steps, i);
    assert ChannelOk(run[i], c);
    assert RegOk(run[i], run[i].channels[c].reg);
  }

  // ---- publications ----

  /** The published snapshots are one chain, each prepared from its predecessor; none is published twice. */
  lemma PublicationsAreAChain(run: seq<State>, steps: seq<Step>, i: nat, k: nat)
    requires IsRun(run, steps) && i < |run| && 0 < k < |run[i].history|
    ensures run[i].history[k - 1] < run[i].history[k] <= |run[i].prepared|
    ensures var x := run[i].prepared[run[i].history[k] - 1];
            && x.next.version == run[i].history[k] && x.previous == SnapshotOf(run[i], run[i].history[k - 1])
            && (k == |run[i].history| - 1 ==> x.next == run[i].current)
  {
    RunKeepsInv(run, steps, i);
    hide Retirement, Channels, Locking, Recorded, IsRetiring, Entry;
    assert Link(run[i], k) && PreparedOk(run[i], run[i].history[k] - 1);
  }

  /** The commit action runs only for a publication prepared from what is current; the rest follows it in order. */
  lemma StaleNeverCommits(run: seq<State>, steps: seq<Step>, i: nat)
    requires IsRun(run, steps) && i < |steps|
    ensures steps[i].Commit? ==> run[i].prepared[steps[i].p].previous == run[i].current
    ensures |run[i].history| > 0
    ensures run[i].history[1..] <= run[i].commits && |run[i].commits| <= |run[i].history|
    ensures run[i].lock.None? ==> run[i].commits == run[i].history[1..]
  {
    RunKeepsInv(run, steps, i);
    hide Retirement, Channels, Linked, IsRetiring, Entry;
    if steps[i].Commit? {
      assert PreparedOk(run[i], steps[i].p);
    }
  }

  /** A registration stops being active only when a publication drops it, and never becomes active again. */
  lemma OnlyDroppedAreRetired(s: State, step: Step, r: RegId)
    requires Inv(s) && Possible(s, step) && r < |s.regs|
    ensures r < |After(s, step).regs|
    ensures Active(After(s, step), r) ==> Active(s, r)
    ensures Active(s, r) && !Active(After(s, step), r) ==>
              step.RetireNext? && r in s.prepared[step.p].retiring && !Held(s, s.prepared[step.p].next, r)
              && s.lock == Some(step.p) && s.prepared[step.p].previous == s.current
  {
    hide Retirement, Channels, Linked, Recorded;
    if step.RetireNext? {
      assert PreparedOk(s, step.p);
      assert s.prepared[step.p].retiring[s.stages[step.p].done] in s.prepared[step.p].retiring;
      DroppedIsCurrent(s, step.p, s.prepared[step.p].retiring[s.stages[step.p].done]);
    }
  }

  lemma KeptIsNotDropped(s: State, x: Prepared, name: Name)
    requires Structure(s) && x.previous == s.current && name in s.current.entries && name in x.next.entries
    requires x.next.entries[name] == s.current.entries[name]
    ensures !Dropped(x, x.next.entries[name])
  {
    hide Structure;
    CurrentNames(s, name);
    forall other | other in s.current.entries
      ensures s.regs[s.current.entries[name]].name == name
      ensures s.current.entries[other] == s.current.entries[name] ==> other == name
    {
      CurrentNames(s, other);
    }
  }

  /** An endpoint with the same owner and access keeps its registration, which this publication never retires. */
  lemma UnchangedIsKept(s: State, x: Prepared, desired: map<Name, Binding>, added: seq<Registration>, name: Name)
    requires Inv(s) && Possible(s, Prepare(x, desired, added)) && name in desired
    ensures name in s.current.entries ==> s.current.entries[name] < |s.regs|
    ensures if name in s.current.entries
               && s.regs[s.current.entries[name]].binding.owner == desired[name].owner
               && s.regs[s.current.entries[name]].binding.access == desired[name].access
            then x.next.entries[name] == s.current.entries[name] && x.next.entries[name] !in x.retiring
            else x.next.entries[name] >= |s.regs| && (name in s.current.entries ==> s.current.entries[name] in x.retiring)
  {
    hide Structure, Chain, Retirement, Channels, ValidDesired, Dropped;
    if name in s.current.entries {
      CurrentNames(s, name);
    }
    if Kept(s.regs, s.current.entries, name, desired[name]) {
      KeptIsNotDropped(s, x, name);
    } else if name in s.current.entries {
      CurrentNames(s, name);
      ReplacedIsDropped(x, name);
    }
  }

  lemma ReplacedIsDropped(x: Prepared, name: Name)
    requires name in x.previous.entries && (name in x.next.entries ==> x.next.entries[name] != x.previous.entries[name])
    ensures Dropped(x, x.previous.entries[name])
  {
  }
}
