/** The registry object: each method is proved to take exactly the steps of the interleaving model, in order. */
module PvRegistries {
  import opened Basics
  import opened RegistryCore
  import opened RegistryInvariant
  import opened RegistrySteps
  import opened RegistryTheorems

  class PvRegistry {
    var regs: seq<Registration>
    var current: Snapshot
    var prepared: seq<Prepared>
    var stages: seq<Stage>
    var lock: Option<nat>
    var channels: seq<Channel>
    ghost var history: seq<nat>
    ghost var commits: seq<nat>

    ghost function Model(): State
      reads this
    {
      State(regs, current, prepared, stages, lock, channels, history, commits)
    }

    constructor ()
      ensures Model() == Start
    {
      regs, current, prepared, stages, lock, channels := [], Snapshot(0, map[]), [], [], None, [];
      history, commits := [0], [];
    }

    /** The published bindings. */
    method Bindings() returns (bindings: map<Name, Binding>)
      requires Inv(Model())
      ensures bindings == Shown(Model()) && bindings.Keys == current.entries.Keys
    {
      hide Inv;
      bindings := map[];
      var rest := current.entries.Keys;
      while rest != {}
        invariant rest <= current.entries.Keys && bindings.Keys == current.entries.Keys - rest
        invariant forall name | name in bindings ::
                    current.entries[name] < |regs| && bindings[name] == regs[current.entries[name]].binding
      {
        var name :| name in rest;
        CurrentReg(Model(), name);
        bindings := bindings[name := regs[current.entries[name]].binding];
        rest := rest - {name};
      }
    }

    /** The next snapshot: kept registrations under unchanged names, new ones under the others. */
    method Entries(desired: map<Name, Binding>, version: nat)
      returns (entries: map<Name, RegId>, added: seq<Registration>)
      requires Inv(Model())
      ensures entries.Keys == desired.Keys
      ensures AllPlaced(regs, current.entries, version, added, desired, entries)
    {
      hide Inv, AllPlaced;
      entries, added := map[], [];
      PlaceNone(regs, current.entries, version, desired);
      var rest := desired.Keys;
      while rest != {}
        invariant rest <= desired.Keys && entries.Keys == desired.Keys - rest
        invariant AllPlaced(regs, current.entries, version, added, desired, entries)
      {
        var name :| name in rest;
        rest := rest - {name};
        if Kept(regs, current.entries, name, desired[name]) {
          PlaceKept(regs, current.entries, version, added, desired, entries, name);
          entries := entries[name := current.entries[name]];
        } else {
          PlaceNew(regs, current.entries, version, added, desired, entries, name);
          entries := entries[name := |regs| + |added|];
          added := added + [Registration(name, version, desired[name], None, false, [])];
        }
      }
    }

    /** The registrations of the current snapshot that the next one does not keep. */
    method Dropping(entries: map<Name, RegId>) returns (retiring: seq<RegId>)
      requires Inv(Model())
      ensures forall version: nat :: IsRetiring(Prepared(current, Snapshot(version, entries), retiring))
    {
      hide Chain, Retirement, Channels;
      retiring := [];
      var rest := current.entries.Keys;
      ghost var done: set<Name> := {};
      while rest != {}
        invariant rest <= current.entries.Keys && done == current.entries.Keys - rest
        invariant forall i, j | 0 <= i < j < |retiring| :: retiring[i] != retiring[j]
        invariant forall r :: r in retiring <==>
                    exists name | name in done :: current.entries[name] == r && (name in entries ==> entries[name] != r)
      {
        var name :| name in rest;
        CurrentDistinct(Model(), name);
        var r := current.entries[name];
        assert r !in retiring;
        if name !in entries || entries[name] != r {
          retiring := retiring + [r];
        }
        rest, done := rest - {name}, done + {name};
      }
      assert done == current.entries.Keys;
    }

    /** Nothing is published yet; an invalid binding is refused and leaves no trace. */
    method Prepare(desired: map<Name, Binding>) returns (result: Option<nat>)
      requires Inv(Model())
      modifies this
      ensures ValidDesired(desired) <==> forall name | name in desired :: name != "" && '\0' !in name && desired[name].complete
      ensures result.Some? <==> ValidDesired(desired)
      ensures Inv(Model())
      ensures result.None? ==> Model() == old(Model())
      ensures result.Some? ==>
                && result.value == |old(prepared)| && |prepared| == |old(prepared)| + 1 && |old(regs)| <= |regs|
                && Possible(old(Model()), Step.Prepare(prepared[result.value], desired, regs[|old(regs)|..]))
                && Model() == After(old(Model()), Step.Prepare(prepared[result.value], desired, regs[|old(regs)|..]))
      ensures result.Some? && AllComplete(old(regs)) ==>
                AllComplete(regs) && Binds(regs, prepared[result.value].next, desired)
    {
      hide Inv, AllPlaced, IsRetiring;
      if name :| name in desired && !(ValidName(name) && desired[name].complete) {
        return None;
      }
      var version := |prepared| + 1;
      var entries, added := Entries(desired, version);
      var retiring := Dropping(entries);
      var x := Prepared(current, Snapshot(version, entries), retiring);
      assert IsPrepared(regs, x, desired, added);
      if AllComplete(regs) {
        PreparedBinds(Model(), x, desired, added);
      }
      StepKeepsInv(Model(), Step.Prepare(x, desired, added));
      result := Some(|prepared|);
      regs, prepared, stages := regs + added, prepared + [x], stages + [Ready];
      assert regs[|old(regs)|..] == added;
    }

    /** Takes the publication lock, unless the snapshot was prepared from one that is no longer current. */
    method Acquire(p: nat) returns (ok: bool)
      requires Inv(Model()) && p < |prepared| && p < |stages| && stages[p].Ready? && lock.None?
      modifies this`stages, this`lock
      ensures Inv(Model()) && Model() == After(old(Model()), Step.Acquire(p))
      ensures ok <==> prepared[p].previous == current
      ensures if ok then lock == Some(p) else Model() == old(Model())
    {
      hide Structure, Chain, Retirement, Channels, IsPrepared;
      SameVersion(Model(), p);
      StepKeepsInv(Model(), Step.Acquire(p));
      if prepared[p].previous.version != current.version {
        return false;
      }
      stages, lock := stages[p := Committing], Some(p);
      ok := true;
    }

    /** Gives the lock back if the commit action failed; otherwise retires what is dropped, then switches. */
    method Settle(p: nat, committed: bool)
      requires Inv(Model()) && p < |prepared| && p < |stages| && stages[p].Committing?
      modifies this
      ensures Inv(Model()) && p < |stages| && OnlyStage(old(stages), stages, p)
      ensures prepared == old(prepared) && channels == old(channels) && lock == None && |regs| == |old(regs)|
      ensures !committed ==> regs == old(regs) && current == old(current) && history == old(history) && stages[p].Ready?
      ensures committed ==> current == prepared[p].next && history == old(history) + [current.version]
                            && stages[p] == Closing(0, [])
      ensures committed ==> forall r | 0 <= r < |regs| ::
                       regs[r] == if r in prepared[p].retiring then old(regs)[r].(retirer := Some(p)) else old(regs)[r]
    {
      hide Structure, Chain, Retirement, Channels, IsPrepared;
      StepKeepsInv(Model(), Commit(p, committed));
      if !committed {
        stages, lock := stages[p := Ready], None;
        return;
      }
      stages, commits := stages[p := Retiring(0)], commits + [prepared[p].next.version];
      var k := 0;
      while k < |prepared[p].retiring|
        invariant prepared == old(prepared) && 0 <= k <= |prepared[p].retiring| && p < |stages| && stages[p] == Retiring(k)
        invariant Inv(Model()) && channels == old(channels) && |regs| == |old(regs)|
        invariant current == old(current) && history == old(history) && OnlyStage(old(stages), stages, p)
        invariant forall r | 0 <= r < |regs| ::
                    regs[r] == if r in prepared[p].retiring[..k] then old(regs)[r].(retirer := Some(p)) else old(regs)[r]
      {
        RetiringIsKnown(Model(), p, k);
        StepKeepsInv(Model(), RetireNext(p));
        var r := prepared[p].retiring[k];
        assert prepared[p].retiring[..k + 1] == prepared[p].retiring[..k] + [r];
        regs, stages := regs[r := regs[r].(retirer := Some(p))], stages[p := Retiring(k + 1)];
        k := k + 1;
      }
      assert prepared[p].retiring[..k] == prepared[p].retiring;
      StepKeepsInv(Model(), Store(p));
      stages, current, lock := stages[p := Closing(0, [])], prepared[p].next, None;
      history := history + [current.version];
    }

    /** A publication whose commit action needs nothing but its outcome. */
    method Publish(p: nat, commits: bool) returns (ok: bool)
      requires Inv(Model()) && p < |prepared| && p < |stages| && stages[p].Ready? && lock.None?
      modifies this
      ensures Inv(Model()) && p < |stages| && OnlyStage(old(stages), stages, p)
      ensures prepared == old(prepared) && channels == old(channels) && lock == None && |regs| == |old(regs)|
      ensures ok <==> prepared[p].previous == old(current) && commits
      ensures !ok ==> regs == old(regs) && current == old(current) && history == old(history)
      ensures ok ==> current == prepared[p].next && history == old(history) + [current.version] && stages[p] == Closing(0, [])
      ensures ok ==> forall r | 0 <= r < |regs| ::
                       regs[r] == if r in prepared[p].retiring then old(regs)[r].(retirer := Some(p)) else old(regs)[r]
    {
      hide Inv;
      ok := Acquire(p);
      if ok {
        Settle(p, commits);
        ok := commits;
      }
    }

    method Purge(list: seq<ChannelId>) returns (kept: seq<ChannelId>)
      ensures kept == Alive(channels, list)
    {
      kept := [];
      var i := 0;
      while i < |list|
        invariant 0 <= i <= |list|
        invariant kept + Alive(channels, list[i..]) == Alive(channels, list)
      {
        assert list[i..][1..] == list[i + 1..];
        if !(list[i] < |channels| && channels[list[i]].gone) {
          kept := kept + [list[i]];
        }
        i := i + 1;
      }
    }

    /** Adds a channel to its registration's list, dropping those that no longer exist. */
    method Track(c: ChannelId)
      requires Inv(Model()) && Possible(Model(), Step.Track(c))
      modifies this`regs, this`channels
      ensures Inv(Model()) && Model() == After(old(Model()), Step.Track(c))
    {
      hide Inv, Alive, IsPrepared, ValidDesired;
      StepKeepsInv(Model(), Step.Track(c));
      var r := channels[c].reg;
      var kept := Purge(regs[r].channels);
      regs := regs[r := regs[r].(channels := kept + [c])];
      channels := channels[c := channels[c].(phase := Tracked)];
    }

    /** Attaches a tracked channel, then closes it again if its registration was retired meanwhile. */
    method AttachAndCheck(c: ChannelId)
      requires Inv(Model()) && Possible(Model(), Attach(c)) && channels[c].reg < |regs|
      modifies this`channels
      ensures Inv(Model()) && |channels| == |old(channels)| && !channels[c].phase.Loaded?
      ensures channels[c] == var x := old(channels)[c].(phase := Checked); if Active(Model(), x.reg) then x else Shut(x)
      ensures forall d | 0 <= d < |channels| && d != c :: channels[d] == old(channels)[d]
    {
      hide Inv, Alive, IsPrepared, ValidDesired;
      StepKeepsInv(Model(), Attach(c));
      channels := channels[c := channels[c].(phase := Attached)];
      StepKeepsInv(Model(), Check(c));
      var active := regs[channels[c].reg].retirer.None?;
      var checked := channels[c].(phase := Checked);
      if !active {
        checked := Shut(checked);
      }
      channels := channels[c := checked];
    }

    /** Creates a channel under a published name, unless the wrapper rejects it. */
    method OnCreate(name: Name, wrapped: bool) returns (c: Option<ChannelId>)
      requires Inv(Model())
      modifies this`regs, this`channels
      ensures Inv(Model())
      ensures c.Some? <==> name in current.entries && wrapped
      ensures name !in current.entries ==> Model() == old(Model())
      ensures c.Some? ==> c.value == |old(channels)| && |channels| == |old(channels)| + 1
                          && channels[c.value].reg == current.entries[name] && channels[c.value].phase.Checked?
                          && channels[c.value].reg < |regs| && (!Active(Model(), channels[c.value].reg) ==> channels[c.value].closed)
    {
      hide Inv, Alive, IsPrepared, ValidDesired;
      if name !in current.entries {
        return None;
      }
      StepKeepsInv(Model(), Open(name));
      CurrentReg(Model(), name);
      var id := |channels|;
      channels := channels + [Channel(current.entries[name], Loaded, false, false)];
      Track(id);
      if wrapped {
        AttachAndCheck(id);
        return Some(id);
      }
      StepKeepsInv(Model(), Leave(id));
      channels := channels[id := channels[id].(gone := true)];
      c := None;
    }

    /** Closes the channels of everything a publication retired. */
    method Finish(p: nat)
      requires Inv(Model()) && p < |prepared| && p < |stages| && stages[p] == Closing(0, [])
      modifies this`regs, this`channels, this`stages
      ensures Inv(Model()) && Finished(Model(), p) && |channels| == |old(channels)|
      ensures SameStanding(old(regs), regs) && OnlyStage(old(stages), stages, p)
      ensures forall c | 0 <= c < |channels| && channels[c].reg in prepared[p].retiring && Created(Model(), c) :: channels[c].closed
    {
      hide Structure, Chain, Retirement, Channels, IsPrepared;
      var k := 0;
      while k < |prepared[p].retiring|
        invariant 0 <= k <= |prepared[p].retiring| && p < |stages| && stages[p] == Closing(k, [])
        invariant Inv(Model()) && |channels| == |old(channels)|
        invariant SameStanding(old(regs), regs) && OnlyStage(old(stages), stages, p)
      {
        RetiringIsKnown(Model(), p, k);
        StepKeepsInv(Model(), Drain(p));
        var r := prepared[p].retiring[k];
        var previous := regs[r].channels;
        regs, stages := regs[r := regs[r].(channels := [], drained := true)], stages[p := Closing(k + 1, previous)];
        var i := 0;
        while i < |previous|
          invariant 0 <= i <= |previous| && p < |stages| && stages[p] == Closing(k + 1, previous[i..])
          invariant Inv(Model()) && |channels| == |old(channels)|
        invariant SameStanding(old(regs), regs) && OnlyStage(old(stages), stages, p)
        {
          PendingIsKnown(Model(), p);
          StepKeepsInv(Model(), CloseNext(p));
          assert previous[i..][1..] == previous[i + 1..];
          channels := channels[previous[i] := Shut(channels[previous[i]])];
          stages := stages[p := Closing(k + 1, previous[i + 1..])];
          i := i + 1;
        }
        k := k + 1;
      }
      forall c | 0 <= c < |channels| && channels[c].reg in prepared[p].retiring && Created(Model(), c)
        ensures channels[c].closed
      {
        ClosedOnceFinished(Model(), p, c);
      }
    }

    /** Prepares, publishes and finishes in one go, as every publisher without a commit action does. */
    method Replace(desired: map<Name, Binding>) returns (ok: bool)
      requires Inv(Model()) && lock.None? && AllComplete(regs)
      modifies this
      ensures Inv(Model()) && lock.None? && AllComplete(regs)
      ensures ok <==> ValidDesired(desired)
      ensures !ok ==> Model() == old(Model())
      ensures ok ==> Shown(Model()) == desired && current.version == |old(prepared)| + 1 && Follows(old(Model()), Model())
      ensures ok ==> |prepared| > |old(prepared)| && prepared[..|old(prepared)|] == old(prepared)
                     && |stages| > |old(stages)| && stages[..|old(stages)|] == old(stages)
    {
      hide Inv, IsPrepared, Follows, Binds;
      var p := Prepare(desired);
      if p.None? {
        return false;
      }
      ghost var x, added := prepared[p.value], regs[|old(regs)|..];
      StageCount(old(Model()));
      ok := Publish(p.value, true);
      BindsStay(old(regs) + added, regs, x.next, desired);
      BindsShown(Model(), desired);
      PublicationFollows(old(Model()), x, desired, added, Model());
      ghost var before := Model();
      Finish(p.value);
      BindsStay(before.regs, regs, x.next, desired);
      BindsShown(Model(), desired);
      FollowsStays(old(Model()), before, Model());
    }
  }

  ghost predicate AllComplete(regs: seq<Registration>) {
    forall r | 0 <= r < |regs| :: regs[r].binding.complete
  }

  /** The snapshot binds exactly the desired names, as desired. */
  ghost predicate Binds(regs: seq<Registration>, snapshot: Snapshot, desired: map<Name, Binding>) {
    && snapshot.entries.Keys == desired.Keys
    && forall name | name in desired ::
         snapshot.entries[name] < |regs| && regs[snapshot.entries[name]].binding == desired[name]
  }

  ghost predicate SameStanding(before: seq<Registration>, after: seq<Registration>) {
    && |before| == |after|
    && forall r | 0 <= r < |after| :: after[r].binding == before[r].binding && after[r].retirer == before[r].retirer
  }

  ghost predicate OnlyStage(before: seq<Stage>, after: seq<Stage>, p: nat) {
    |before| == |after| && forall q | 0 <= q < |after| && q != p :: after[q] == before[q]
  }

  /** A name keeps its registration, still active, exactly when it keeps its binding; every other one is retired. */
  ghost predicate Follows(before: State, after: State) {
    forall name | name in before.current.entries ::
      var r := before.current.entries[name];
      && r < |after.regs| && name in Shown(before)
      && if name in Shown(after) && Shown(after)[name] == Shown(before)[name]
         then name in after.current.entries && after.current.entries[name] == r && Active(after, r)
         else !Active(after, r)
  }

  lemma CurrentIsActive(s: State, name: Name)
    requires Inv(s) && s.lock.None? && name in s.current.entries
    ensures s.current.entries[name] < |s.regs| && Active(s, s.current.entries[name])
  {
    hide Chain, Channels;
    CurrentNames(s, name);
    assert RegOk(s, s.current.entries[name]);
  }

  lemma PublicationFollows(s: State, x: Prepared, desired: map<Name, Binding>, added: seq<Registration>, t: State)
    requires Inv(s) && s.lock.None? && AllComplete(s.regs) && Possible(s, Step.Prepare(x, desired, added))
    requires t.current == x.next && |t.regs| == |s.regs| + |added| && Shown(t) == desired
    requires forall r | 0 <= r < |t.regs| :: t.regs[r].retirer.Some? <==> r in x.retiring || (s.regs + added)[r].retirer.Some?
    ensures Follows(s, t)
  {
    hide Inv, IsPrepared, Dropped;
    forall name | name in s.current.entries
      ensures var r := s.current.entries[name];
              && r < |t.regs| && name in Shown(s)
              && if name in desired && desired[name] == Shown(s)[name]
                 then name in t.current.entries && t.current.entries[name] == r && Active(t, r)
                 else !Active(t, r)
    {
      CurrentIsActive(s, name);
      if name in desired {
        PreparedKeys(s, x, desired, added);
        UnchangedIsKept(s, x, desired, added, name);
      } else {
        DroppedIsRetiring(s, x, desired, added, name);
      }
    }
  }

  lemma PreparedKeys(s: State, x: Prepared, desired: map<Name, Binding>, added: seq<Registration>)
    requires Possible(s, Step.Prepare(x, desired, added))
    ensures x.next.entries.Keys == desired.Keys
    ensures forall name | name in desired :: desired[name].complete
  {
    hide AllPlaced, IsRetiring;
  }

  lemma DroppedIsRetiring(s: State, x: Prepared, desired: map<Name, Binding>, added: seq<Registration>, name: Name)
    requires Possible(s, Step.Prepare(x, desired, added)) && name in s.current.entries && name !in desired
    ensures s.current.entries[name] in x.retiring
  {
    hide AllPlaced, ValidDesired;
    ReplacedIsDropped(x, name);
  }

  /** New registrations that no snapshot has yet do not show. */
  lemma ShownSame(s: State, t: State)
    requires Inv(s) && t.current == s.current && |s.regs| <= |t.regs|
    requires forall r | 0 <= r < |s.regs| :: t.regs[r].binding == s.regs[r].binding
    ensures Shown(t) == Shown(s)
  {
    hide Inv;
    forall name | name in s.current.entries
      ensures s.current.entries[name] < |s.regs|
    {
      CurrentReg(s, name);
    }
  }

  /** Whether kept or new, the registration under a prepared name has the binding asked for. */
  lemma PreparedBinds(s: State, x: Prepared, desired: map<Name, Binding>, added: seq<Registration>)
    requires Possible(s, Step.Prepare(x, desired, added)) && AllComplete(s.regs)
    ensures AllComplete(s.regs + added) && Binds(s.regs + added, x.next, desired)
  {
    hide IsRetiring;
    forall i | 0 <= i < |added|
      ensures added[i].binding.complete
    {
      var name := added[i].name;
      assert Placed(s.regs, x.previous.entries, x.next.version, added, name, desired[name], x.next.entries[name]);
    }
    forall name | name in desired
      ensures x.next.entries[name] < |s.regs + added| && (s.regs + added)[x.next.entries[name]].binding == desired[name]
    {
      assert Placed(s.regs, x.previous.entries, x.next.version, added, name, desired[name], x.next.entries[name]);
    }
  }

  lemma BindsStay(before: seq<Registration>, after: seq<Registration>, snapshot: Snapshot, desired: map<Name, Binding>)
    requires Binds(before, snapshot, desired) && |before| == |after|
    requires forall r | 0 <= r < |after| :: after[r].binding == before[r].binding
    ensures Binds(after, snapshot, desired)
  {
  }

  lemma StageCount(s: State)
    requires Inv(s)
    ensures |s.stages| == |s.prepared|
  {
    hide Chain, Retirement, Channels, PreparedOk;
  }

  lemma FollowsStays(s: State, t: State, u: State)
    requires Follows(s, t) && u.current == t.current && SameStanding(t.regs, u.regs) && Shown(u) == Shown(t)
    ensures Follows(s, u)
  {
  }

  /** Once a bound snapshot is current, readers see the bindings asked for. */
  lemma BindsShown(s: State, desired: map<Name, Binding>)
    requires Binds(s.regs, s.current, desired)
    ensures Shown(s) == desired
  {
  }

  /** What was prepared before a snapshot that is now current is stale. */
  lemma Outdated(s: State, p: nat)
    requires Inv(s) && p < |s.prepared| && s.current.version > p
    ensures s.prepared[p].previous != s.current
  {
    hide Chain, Retirement, Channels, IsRetiring;
    assert PreparedOk(s, p);
  }

  lemma CurrentReg(s: State, name: Name)
    requires Inv(s) && name in s.current.entries
    ensures s.current.entries[name] < |s.regs|
  {
    hide Structure, Chain, Retirement, Channels;
    CurrentNames(s, name);
  }

  lemma PendingIsKnown(s: State, p: nat)
    requires Inv(s) && p < |s.stages| && s.stages[p].Closing? && s.stages[p].pending != []
    ensures s.stages[p].pending[0] < |s.channels|
  {
    hide Structure, Chain, Retirement;
  }

  lemma SameVersion(s: State, p: nat)
    requires Inv(s) && p < |s.prepared|
    ensures s.prepared[p].previous == s.current <==> s.prepared[p].previous.version == s.current.version
    ensures |s.stages| == |s.prepared|
  {
    hide Chain, Retirement, Channels, IsRetiring;
    assert PreparedOk(s, p);
  }

  lemma RetiringIsKnown(s: State, p: nat, k: nat)
    requires Inv(s) && p < |s.prepared| && k < |s.prepared[p].retiring|
    ensures s.prepared[p].retiring[k] < |s.regs|
  {
    hide Structure, Chain, Channels;
    assert StageOk(s, p);
  }

  lemma PlaceNone(regs: seq<Registration>, previous: map<Name, RegId>, version: nat, desired: map<Name, Binding>)
    ensures AllPlaced(regs, previous, version, [], desired, map[])
  {
  }

  lemma PlaceKept(regs: seq<Registration>, previous: map<Name, RegId>, version: nat, added: seq<Registration>,
                  desired: map<Name, Binding>, entries: map<Name, RegId>, name: Name)
    requires AllPlaced(regs, previous, version, added, desired, entries)
    requires name in desired && name !in entries && Kept(regs, previous, name, desired[name])
    ensures AllPlaced(regs, previous, version, added, desired, entries[name := previous[name]])
  {
  }

  lemma PlaceNew(regs: seq<Registration>, previous: map<Name, RegId>, version: nat, added: seq<Registration>,
                 desired: map<Name, Binding>, entries: map<Name, RegId>, name: Name)
    requires AllPlaced(regs, previous, version, added, desired, entries)
    requires name in desired && name !in entries && !Kept(regs, previous, name, desired[name])
    ensures AllPlaced(regs, previous, version, added + [Registration(name, version, desired[name], None, false, [])],
                      desired, entries[name := |regs| + |added|])
  {
    var more := added + [Registration(name, version, desired[name], None, false, [])];
    forall x | x in entries
      ensures Placed(regs, previous, version, more, x, desired[x], entries[x])
    {
      assert Placed(regs, previous, version, added, x, desired[x], entries[x]);
    }
  }

  /** A registration stands under one name only. */
  lemma CurrentDistinct(s: State, name: Name)
    requires Inv(s) && name in s.current.entries
    ensures forall other | other in s.current.entries && other != name :: s.current.entries[other] != s.current.entries[name]
  {
    hide Structure, Chain, Retirement, Channels;
    CurrentNames(s, name);
    forall other | other in s.current.entries && other != name
      ensures s.current.entries[other] != s.current.entries[name]
    {
      CurrentNames(s, other);
    }
  }
}
