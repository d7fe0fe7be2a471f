/** Which channels are closed, and which publications go ahead: both directions, in every run of the registry. */
module RegistryChannels {
  import opened Basics
  import opened RegistryCore
  import opened RegistryInvariant
  import opened RegistrySteps
  import opened RegistryTheorems

  // ---- only what was retired is closed ----

  ghost predicate Gone(s: State, c: ChannelId) {
    c < |s.channels| && s.channels[c].reg < |s.regs| && !Active(s, s.channels[c].reg)
  }

  /** A registration lists its own channels only. */
  ghost predicate Filed(s: State) {
    forall r | 0 <= r < |s.regs| :: ListsOwn(s.channels, s.regs[r].channels, r)
  }

  ghost predicate ListsOwn(channels: seq<Channel>, list: seq<ChannelId>, r: RegId) {
    forall c | c in list :: c < |channels| && channels[c].reg == r
  }

  ghost predicate Ending(s: State) {
    forall p, c | 0 <= p < |s.stages| && s.stages[p].Closing? && c in s.stages[p].pending :: Gone(s, c)
  }

  ghost predicate Shuttered(s: State) {
    forall c | 0 <= c < |s.channels| && s.channels[c].closed ::
      Gone(s, c) && (s.channels[c].phase.Attached? || s.channels[c].phase.Checked?)
  }

  ghost predicate Tidy(s: State) {
    Filed(s) && Ending(s) && Shuttered(s)
  }

  /** Registrations and channels stay, and what was retired stays retired. */
  ghost predicate Ahead(s: State, t: State) {
    && |s.regs| <= |t.regs| && |s.channels| <= |t.channels|
    && (forall r | 0 <= r < |s.regs| :: s.regs[r].retirer.Some? ==> t.regs[r].retirer.Some?)
    && (forall c | 0 <= c < |s.channels| :: t.channels[c].reg == s.channels[c].reg)
  }

  lemma StepAhead(s: State, step: Step)
    requires Possible(s, step)
    ensures Ahead(s, After(s, step))
  {
    hide IsPrepared, Alive, ValidDesired;
  }

  lemma ListsStay(s: State, t: State, list: seq<ChannelId>, r: RegId)
    requires Ahead(s, t) && ListsOwn(s.channels, list, r)
    ensures ListsOwn(t.channels, list, r)
  {
  }

  lemma TrackLists(s: State, c: ChannelId)
    requires Possible(s, Track(c)) && Filed(s)
    ensures ListsOwn(s.channels, After(s, Track(c)).regs[s.channels[c].reg].channels, s.channels[c].reg)
  {
    var list := s.regs[s.channels[c].reg].channels;
    AliveIs(s.channels, list);
    assert ListsOwn(s.channels, list, s.channels[c].reg);
  }

  lemma StepFiles(s: State, step: Step)
    requires Possible(s, step) && Filed(s) && (step.Prepare? ==> forall i | 0 <= i < |step.added| :: step.added[i].channels == [])
    ensures Filed(After(s, step))
  {
    StepAhead(s, step);
    hide IsPrepared, ValidDesired, Alive, Ahead;
    var t := After(s, step);
    forall r | 0 <= r < |t.regs|
      ensures ListsOwn(t.channels, t.regs[r].channels, r)
    {
      if t.regs[r].channels != [] {
        if step.Track? && r == s.channels[step.c].reg {
          TrackLists(s, step.c);
        }
        ListsStay(s, t, t.regs[r].channels, r);
      }
    }
  }

  lemma AddedIsEmpty(s: State, step: Step)
    requires Possible(s, step) && step.Prepare?
    ensures forall i | 0 <= i < |step.added| :: step.added[i].channels == []
  {
    hide IsRetiring, ValidDesired;
    forall i | 0 <= i < |step.added|
      ensures step.added[i].channels == []
    {
      var name := step.added[i].name;
      assert Placed(s.regs, step.prepared.previous.entries, step.prepared.next.version, step.added, name,
                    step.desired[name], step.prepared.next.entries[name]);
    }
  }

  lemma GoneStays(s: State, t: State, c: ChannelId)
    requires Ahead(s, t) && Gone(s, c)
    ensures Gone(t, c)
  {
  }

  lemma StepEnds(s: State, step: Step)
    requires Possible(s, step) && Retirement(s) && Filed(s) && Ending(s)
    ensures Ending(After(s, step))
  {
    StepAhead(s, step);
    hide IsPrepared, ValidDesired, Alive, Ahead, Gone;
    var t := After(s, step);
    forall p, c | 0 <= p < |t.stages| && t.stages[p].Closing? && c in t.stages[p].pending
      ensures Gone(t, c)
    {
      if step.Drain? && p == step.p {
        assert StageOk(s, p);
        DrainedIsGone(s, p, c);
      } else {
        assert c in s.stages[p].pending;
      }
      GoneStays(s, t, c);
    }
  }

  lemma DrainedIsGone(s: State, p: nat, c: ChannelId)
    requires Possible(s, Drain(p)) && StageOk(s, p) && Filed(s)
    requires c in s.regs[s.prepared[p].retiring[s.stages[p].done]].channels
    ensures Gone(s, c)
  {
    var r := s.prepared[p].retiring[s.stages[p].done];
    assert ListsOwn(s.channels, s.regs[r].channels, r);
  }

  lemma StepShuts(s: State, step: Step)
    requires Possible(s, step) && Ending(s) && Shuttered(s)
    ensures Shuttered(After(s, step))
  {
    StepAhead(s, step);
    hide IsPrepared, ValidDesired, Alive, Ahead, Gone;
    var t := After(s, step);
    forall c | 0 <= c < |t.channels| && t.channels[c].closed
      ensures Gone(t, c) && (t.channels[c].phase.Attached? || t.channels[c].phase.Checked?)
    {
      if step == Check(c) && !s.channels[c].closed {
        CheckedIsGone(s, c);
      } else if step.CloseNext? && c == s.stages[step.p].pending[0] {
        assert c in s.stages[step.p].pending;
      }
      GoneStays(s, t, c);
    }
  }

  lemma CheckedIsGone(s: State, c: ChannelId)
    requires Possible(s, Check(c)) && !s.channels[c].closed && After(s, Check(c)).channels[c].closed
    ensures Gone(s, c)
  {
  }

  lemma {:induction false} RunIsTidy(run: seq<State>, steps: seq<Step>, i: nat)
    requires IsRun(run, steps) && i < |run|
    ensures Tidy(run[i])
  {
    if i > 0 {
      var s, step := run[i - 1], steps[i - 1];
      RunIsTidy(run, steps, i - 1);
      RunKeepsInv(run, steps, i - 1);
      assert Possible(s, step) && run[i] == After(s, step);
      hide Structure, Chain, Retirement, Channels, Possible, After, Filed, Ending, Shuttered;
      if step.Prepare? {
        AddedIsEmpty(s, step);
      }
      StepFiles(s, step);
      StepEnds(s, step);
      StepShuts(s, step);
    }
  }

  /** Whatever the interleaving: a channel is closed only after it was attached and its registration retired. */
  lemma ClosedMeansRetired(run: seq<State>, steps: seq<Step>, i: nat, c: ChannelId)
    requires IsRun(run, steps) && i < |run| && c < |run[i].channels| && run[i].channels[c].closed
    ensures run[i].channels[c].reg < |run[i].regs| && !Active(run[i], run[i].channels[c].reg)
    ensures run[i].channels[c].phase.Attached? || run[i].channels[c].phase.Checked?
  {
    hide Possible, After, Filed, Ending;
    RunIsTidy(run, steps, i);
  }

  /** With no publication under way, a channel is open exactly if the current snapshot holds its registration. */
  lemma OpenIffCurrent(run: seq<State>, steps: seq<Step>, i: nat, c: ChannelId)
    requires IsRun(run, steps) && i < |run| && AtRest(run[i]) && Created(run[i], c)
    ensures !run[i].channels[c].closed <==> Held(run[i], run[i].current, run[i].channels[c].reg)
  {
    hide Possible, After, Held, Active;
    AdmittedIsCurrent(run, steps, i, c);
    if run[i].channels[c].closed {
      ClosedMeansRetired(run, steps, i, c);
    } else {
      OpenChannelsAreCurrent(run, steps, i, c);
    }
  }

  // ---- which publications go ahead ----

  /** Some publication was stored in between. */
  ghost predicate Stored(steps: seq<Step>, i: nat, j: nat) {
    exists k | i <= k < j && k < |steps| :: steps[k].Store?
  }

  lemma StepHistory(s: State, step: Step)
    requires Possible(s, step)
    ensures var t := After(s, step);
            && s.prepared <= t.prepared && s.history <= t.history
            && (if step.Store? then |t.history| == |s.history| + 1 else t.history == s.history && t.current == s.current)
  {
    hide IsPrepared, Alive, ValidDesired;
  }

  lemma {:induction false} RunHistory(run: seq<State>, steps: seq<Step>, i: nat, j: nat)
    requires IsRun(run, steps) && i <= j < |run|
    ensures run[i].prepared <= run[j].prepared && run[i].history <= run[j].history
    ensures if Stored(steps, i, j) then |run[j].history| > |run[i].history| else run[j].current == run[i].current
    decreases j
  {
    if i < j {
      RunHistory(run, steps, i, j - 1);
      var s, step := run[j - 1], steps[j - 1];
      assert Possible(s, step) && run[j] == After(s, step);
      hide Possible, After;
      StepHistory(s, step);
      assert Stored(steps, i, j) <==> Stored(steps, i, j - 1) || step.Store?;
    }
  }

  lemma {:induction false} Rising(s: State, a: nat, b: nat)
    requires Inv(s) && a < b < |s.history|
    ensures s.history[a] < s.history[b]
    decreases b
  {
    hide Retirement, Channels, Locking, Recorded, IsRetiring, Entry;
    assert Link(s, b) && PreparedOk(s, s.history[b] - 1);
    if a < b - 1 {
      Rising(s, a, b - 1);
    }
  }

  /**
   A prepared publication takes the lock exactly if no other one was stored between its preparation and the attempt, and
   only then is its commit action run.
   */
  lemma GoesAheadIff(run: seq<State>, steps: seq<Step>, i: nat, j: nat, p: nat)
    requires IsRun(run, steps) && i < j < |steps| && steps[i].Prepare? && p == |run[i].prepared| && steps[j] == Acquire(p)
    ensures (run[j + 1].lock == Some(p)) <==> !Stored(steps, i, j)
    ensures Stored(steps, i, j) ==> run[j + 1] == run[j]
  {
    RunKeepsInv(run, steps, i);
    RunKeepsInv(run, steps, j);
    RunHistory(run, steps, i, j);
    assert Possible(run[i], steps[i]) && run[i + 1] == After(run[i], steps[i]);
    assert Possible(run[j], steps[j]) && run[j + 1] == After(run[j], steps[j]);
    RunHistory(run, steps, i + 1, j);
    hide Stored, IsPrepared, Retirement, Channels, Structure;
    assert run[j].prepared[p].previous == run[i].current;
    if Stored(steps, i, j) {
      Rising(run[j], |run[i].history| - 1, |run[j].history| - 1);
    }
  }
}
