/** Every step of the registry keeps the invariant. */
module RegistrySteps {
  import opened Basics
  import opened RegistryCore
  import opened RegistryInvariant

  // ---- structure ----

  /** Nothing is added, and registrations keep their names and the snapshots they were made for. */
  ghost predicate SameShape(s: State, t: State) {
    && t.prepared == s.prepared && |t.stages| == |s.stages| && |t.regs| == |s.regs|
    && (forall r | 0 <= r < |s.regs| :: t.regs[r].name == s.regs[r].name && t.regs[r].born == s.regs[r].born)
  }

  lemma PreparedSame(s: State, t: State, p: nat)
    requires SameShape(s, t) && p < |s.prepared| && PreparedOk(s, p)
    ensures PreparedOk(t, p)
  {
    hide IsRetiring;
    forall name | name in t.prepared[p].next.entries
      ensures Entry(t, p, name)
    {
      assert Entry(s, p, name);
    }
  }

  lemma StructureSame(s: State, t: State, v: nat)
    requires Structure(s) && SameShape(s, t) && v <= |s.prepared| && t.current == SnapshotOf(s, v)
    ensures Structure(t)
  {
    hide PreparedOk;
    forall p | 0 <= p < |t.prepared|
      ensures PreparedOk(t, p)
    {
      PreparedSame(s, t, p);
    }
    VersionIs(s, v);
    forall r | 0 <= r < |t.regs|
      ensures 1 <= t.regs[r].born <= |t.prepared| && Held(t, t.prepared[t.regs[r].born - 1].next, r)
    {
      assert Held(s, s.prepared[s.regs[r].born - 1].next, r);
    }
  }

  lemma VersionIs(s: State, v: nat)
    requires Structure(s) && v <= |s.prepared|
    ensures SnapshotOf(s, v).version == v
  {
    hide IsRetiring, Entry;
    if v > 0 {
      assert PreparedOk(s, v - 1);
    }
  }

  lemma CurrentNames(s: State, name: Name)
    requires Structure(s) && name in s.current.entries
    ensures s.current.entries[name] < |s.regs| && s.regs[s.current.entries[name]].name == name
  {
    hide IsRetiring;
    assert s.current.version > 0;
    assert PreparedOk(s, s.current.version - 1);
    assert Entry(s, s.current.version - 1, name);
  }

  lemma PreparedGrows(s: State, t: State, p: nat)
    requires p < |s.prepared| && PreparedOk(s, p) && s.prepared <= t.prepared && s.regs <= t.regs
    ensures PreparedOk(t, p)
  {
    hide IsRetiring;
    forall name | name in t.prepared[p].next.entries
      ensures Entry(t, p, name)
    {
      assert Entry(s, p, name);
    }
  }

  lemma PreparedNew(s: State, x: Prepared, desired: map<Name, Binding>, added: seq<Registration>)
    requires Structure(s) && Possible(s, Prepare(x, desired, added))
    ensures PreparedOk(After(s, Prepare(x, desired, added)), |s.prepared|)
  {
    hide IsRetiring, PreparedOk, ValidDesired;
    var t := After(s, Prepare(x, desired, added));
    forall name | name in x.next.entries
      ensures Entry(t, |s.prepared|, name)
    {
      if Kept(s.regs, x.previous.entries, name, desired[name]) {
        CurrentNames(s, name);
      }
    }
    PreparedIs(t, |s.prepared|);
  }

  lemma PreparedIs(s: State, p: nat)
    requires p < |s.prepared|
    requires s.prepared[p].next.version == p + 1 && s.prepared[p].previous.version <= p
    requires s.prepared[p].previous == SnapshotOf(s, s.prepared[p].previous.version)
    requires forall name | name in s.prepared[p].next.entries :: Entry(s, p, name)
    requires IsRetiring(s.prepared[p])
    ensures PreparedOk(s, p)
  {
    hide IsRetiring;
  }

  lemma AddedIs(s: State, x: Prepared, desired: map<Name, Binding>, added: seq<Registration>, i: nat)
    requires Possible(s, Prepare(x, desired, added)) && i < |added|
    ensures added[i].name in desired && x.next.entries[added[i].name] == |s.regs| + i
    ensures added[i] == Registration(added[i].name, |s.prepared| + 1, desired[added[i].name], None, false, [])
  {
    hide IsRetiring, ValidDesired;
  }

  lemma PrepareStructure(s: State, x: Prepared, desired: map<Name, Binding>, added: seq<Registration>)
    requires Structure(s) && Possible(s, Prepare(x, desired, added))
    ensures Structure(After(s, Prepare(x, desired, added)))
  {
    var t := After(s, Prepare(x, desired, added));
    PreparedNew(s, x, desired, added);
    forall p | 0 <= p < |s.prepared|
      ensures PreparedOk(t, p)
    {
      PreparedGrows(s, t, p);
    }
    forall r | 0 <= r < |t.regs|
      ensures 1 <= t.regs[r].born <= |t.prepared| && Held(t, t.prepared[t.regs[r].born - 1].next, r)
    {
      if r >= |s.regs| {
        AddedIs(s, x, desired, added, r - |s.regs|);
      } else {
        assert Held(s, s.prepared[s.regs[r].born - 1].next, r);
      }
    }
  }

  // ---- the chain ----

  ghost predicate SameKind(a: Stage, b: Stage) {
    (a.Ready? <==> b.Ready?) && (a.Committing? <==> b.Committing?) && (a.Retiring? <==> b.Retiring?)
  }

  lemma LinkedSame(s: State, t: State)
    requires Linked(s) && s.prepared <= t.prepared && t.history == s.history && t.current == s.current
    ensures Linked(t)
  {
    forall i | 0 < i < |t.history|
      ensures Link(t, i)
    {
      assert Link(s, i);
    }
  }

  lemma ChainSame(s: State, t: State)
    requires Chain(s) && t.prepared == s.prepared && |t.stages| == |s.stages|
    requires forall p | 0 <= p < |s.stages| :: SameKind(s.stages[p], t.stages[p])
    requires t.history == s.history && t.lock == s.lock && t.commits == s.commits && t.current == s.current
    ensures Chain(t)
  {
    hide Linked;
    LinkedSame(s, t);
    assert forall p | 0 <= p < |t.stages| :: SameKind(s.stages[p], t.stages[p]);
  }

  lemma PrepareChain(s: State, x: Prepared, desired: map<Name, Binding>, added: seq<Registration>)
    requires Chain(s) && Possible(s, Prepare(x, desired, added))
    ensures Chain(After(s, Prepare(x, desired, added)))
  {
    hide IsPrepared, ValidDesired;
    var t := After(s, Prepare(x, desired, added));
    LinkedSame(s, t);
    forall i | 0 <= i < |s.history|
      ensures s.history[i] <= |s.prepared|
    {
      if i > 0 {
        assert Link(s, i);
      }
    }
  }

  lemma AcquireChain(s: State, p: nat)
    requires Chain(s) && Possible(s, Acquire(p))
    ensures Chain(After(s, Acquire(p)))
  {
    hide Linked;
    LinkedSame(s, After(s, Acquire(p)));
  }

  lemma CommitChain(s: State, p: nat, ok: bool)
    requires Structure(s) && Chain(s) && Possible(s, Commit(p, ok))
    ensures Chain(After(s, Commit(p, ok)))
  {
    hide Linked, Structure;
    LinkedSame(s, After(s, Commit(p, ok)));
    VersionIs(s, p + 1);
  }

  lemma StoreLinked(s: State, p: nat)
    requires Linked(s) && Locking(s) && Possible(s, Store(p)) && s.prepared[p].next.version == p + 1
    ensures Linked(After(s, Store(p)))
  {
    var t := After(s, Store(p));
    forall i | 0 < i < |t.history|
      ensures Link(t, i)
    {
      if i < |s.history| {
        assert Link(s, i);
      }
    }
  }

  lemma StoreRecorded(s: State, p: nat)
    requires Locking(s) && Recorded(s) && Possible(s, Store(p)) && s.prepared[p].next.version == p + 1
    ensures Recorded(After(s, Store(p)))
  {
    var t := After(s, Store(p));
    assert t.history[1..] == s.history[1..] + [p + 1];
  }

  lemma StoreChain(s: State, p: nat)
    requires Structure(s) && Chain(s) && Possible(s, Store(p))
    ensures Chain(After(s, Store(p)))
  {
    hide Structure, Linked, Recorded;
    VersionIs(s, p + 1);
    StoreLinked(s, p);
    StoreRecorded(s, p);
  }

  // ---- retirement ----

  /** The same but for pending channels. */
  ghost predicate SameStage(a: Stage, b: Stage) {
    a == b || (a.Closing? && b.Closing? && a.done == b.done)
  }

  ghost predicate SameRetirement(s: State, t: State) {
    && SameShape(s, t)
    && (forall r | 0 <= r < |s.regs| :: t.regs[r].retirer == s.regs[r].retirer && t.regs[r].drained == s.regs[r].drained)
    && (forall p | 0 <= p < |s.stages| :: SameStage(s.stages[p], t.stages[p]))
    && t.history == s.history && t.lock == s.lock && t.current == s.current
  }

  lemma RetirementSame(s: State, t: State)
    requires Retirement(s) && SameRetirement(s, t)
    ensures Retirement(t)
  {
    forall p | 0 <= p < |t.prepared|
      ensures StageOk(t, p)
    {
      assert StageOk(s, p) && SameStage(s.stages[p], t.stages[p]);
    }
    forall r | 0 <= r < |t.regs|
      ensures RegOk(t, r)
    {
      assert RegOk(s, r);
      if t.regs[r].retirer.Some? {
        assert SameStage(s.stages[t.regs[r].retirer.value], t.stages[t.regs[r].retirer.value]);
      }
    }
  }

  lemma DroppedIsCurrent(s: State, p: nat, r: RegId)
    requires Structure(s) && p < |s.prepared| && s.prepared[p].previous == s.current && r in s.prepared[p].retiring
    ensures Held(s, s.current, r)
    ensures s.regs[r].name in s.prepared[p].next.entries ==> s.prepared[p].next.entries[s.regs[r].name] != r
  {
    assert PreparedOk(s, p);
    assert Dropped(s.prepared[p], r);
    var name :| name in s.current.entries && s.current.entries[name] == r
      && (name in s.prepared[p].next.entries ==> s.prepared[p].next.entries[name] != r);
    CurrentNames(s, name);
  }

  lemma PrepareRetirement(s: State, x: Prepared, desired: map<Name, Binding>, added: seq<Registration>)
    requires Structure(s) && Chain(s) && Retirement(s) && Possible(s, Prepare(x, desired, added))
    ensures Retirement(After(s, Prepare(x, desired, added)))
  {
    var t := After(s, Prepare(x, desired, added));
    hide Structure, IsPrepared, ValidDesired, Chain;
    forall p | 0 <= p < |t.prepared|
      ensures StageOk(t, p)
    {
      if p < |s.prepared| {
        assert StageOk(s, p);
      } else {
        PrepareListed(s, x, desired, added);
      }
    }
    forall r | 0 <= r < |t.regs|
      ensures RegOk(t, r)
    {
      if r < |s.regs| {
        RegGrows(s, t, r);
      } else {
        AddedOk(s, x, desired, added, r - |s.regs|);
      }
    }
  }

  lemma RegGrows(s: State, t: State, r: RegId)
    requires r < |s.regs| && RegOk(s, r) && s.regs <= t.regs && s.stages <= t.stages && s.prepared <= t.prepared
    requires t.history == s.history && t.lock == s.lock && t.current == s.current
    ensures RegOk(t, r)
  {
    assert Held(t, t.current, r) <==> Held(s, s.current, r);
    if s.regs[r].retirer.Some? {
      var q := s.regs[r].retirer.value;
      assert t.stages[q] == s.stages[q] && t.prepared[q] == s.prepared[q];
    }
  }

  lemma AddedOk(s: State, x: Prepared, desired: map<Name, Binding>, added: seq<Registration>, i: nat)
    requires Structure(s) && Chain(s) && Possible(s, Prepare(x, desired, added)) && i < |added|
    ensures RegOk(After(s, Prepare(x, desired, added)), |s.regs| + i)
  {
    hide Structure, IsPrepared, ValidDesired, Chain;
    var t := After(s, Prepare(x, desired, added));
    var r := |s.regs| + i;
    AddedIs(s, x, desired, added, i);
    assert t.regs[r] == added[i];
    FreshVersion(s);
    if t.regs[r].name in s.current.entries {
      CurrentNames(s, t.regs[r].name);
    }
  }

  lemma PrepareListed(s: State, x: Prepared, desired: map<Name, Binding>, added: seq<Registration>)
    requires Structure(s) && Possible(s, Prepare(x, desired, added))
    ensures Listed(After(s, Prepare(x, desired, added)), |s.prepared|)
  {
    hide Structure, ValidDesired;
    forall i | 0 <= i < |x.retiring|
      ensures x.retiring[i] < |s.regs|
    {
      assert Dropped(x, x.retiring[i]);
      var name :| name in x.previous.entries && x.previous.entries[name] == x.retiring[i];
      CurrentNames(s, name);
    }
  }

  lemma FreshVersion(s: State)
    requires Chain(s)
    ensures |s.prepared| + 1 !in s.history
  {
    hide Locking, Recorded;
    forall i | 0 <= i < |s.history|
      ensures s.history[i] <= |s.prepared|
    {
      if i > 0 {
        assert Link(s, i);
      }
    }
  }

  lemma AcquireRetirement(s: State, p: nat)
    requires Retirement(s) && Possible(s, Acquire(p))
    ensures Retirement(After(s, Acquire(p)))
  {
    var t := After(s, Acquire(p));
    forall q | 0 <= q < |t.prepared|
      ensures StageOk(t, q)
    {
      assert StageOk(s, q);
    }
    forall r | 0 <= r < |t.regs|
      ensures RegOk(t, r)
    {
      assert RegOk(s, r);
    }
  }

  lemma CommitRetirement(s: State, p: nat, ok: bool)
    requires Retirement(s) && Locking(s) && Possible(s, Commit(p, ok))
    ensures Retirement(After(s, Commit(p, ok)))
  {
    var t := After(s, Commit(p, ok));
    forall q | 0 <= q < |t.prepared|
      ensures StageOk(t, q)
    {
      assert StageOk(s, q);
    }
    forall r | 0 <= r < |t.regs|
      ensures RegOk(t, r)
    {
      assert RegOk(s, r);
    }
  }

  /** The next registration to retire is still active. */
  lemma NextIsActive(s: State, p: nat)
    requires Structure(s) && Chain(s) && Retirement(s) && Possible(s, RetireNext(p))
    ensures var r := s.prepared[p].retiring[s.stages[p].done];
            Held(s, s.current, r) && Active(s, r) && !s.regs[r].drained && s.lock == Some(p)
  {
    hide Linked, Recorded;
    assert PreparedOk(s, p);
    var r := s.prepared[p].retiring[s.stages[p].done];
    DroppedIsCurrent(s, p, r);
    assert RegOk(s, r);
  }

  lemma RetireNextStage(s: State, p: nat, q: nat)
    requires Retirement(s) && Possible(s, RetireNext(p)) && q < |s.prepared|
    requires Active(s, s.prepared[p].retiring[s.stages[p].done])
    ensures StageOk(After(s, RetireNext(p)), q)
  {
    hide RegOk;
    assert StageOk(s, q) && StageOk(s, p);
  }

  lemma RetireNextReg(s: State, p: nat, x: RegId)
    requires Retirement(s) && Possible(s, RetireNext(p)) && x < |s.regs|
    requires Active(s, s.prepared[p].retiring[s.stages[p].done])
    requires Held(s, s.current, s.prepared[p].retiring[s.stages[p].done]) && s.lock == Some(p)
    ensures RegOk(After(s, RetireNext(p)), x)
  {
    hide StageOk;
    var t := After(s, RetireNext(p));
    assert RegOk(s, x);
    if x == s.prepared[p].retiring[s.stages[p].done] {
      assert t.prepared[p].retiring[s.stages[p].done] == x;
    }
  }

  lemma RetireNextRetirement(s: State, p: nat)
    requires Structure(s) && Chain(s) && Retirement(s) && Possible(s, RetireNext(p))
    ensures Retirement(After(s, RetireNext(p)))
  {
    var t := After(s, RetireNext(p));
    NextIsActive(s, p);
    hide Structure, Chain, RegOk, StageOk;
    forall q | 0 <= q < |t.prepared|
      ensures StageOk(t, q)
    {
      RetireNextStage(s, p, q);
    }
    forall x | 0 <= x < |t.regs|
      ensures RegOk(t, x)
    {
      RetireNextReg(s, p, x);
    }
  }

  lemma DrainRetirement(s: State, p: nat)
    requires Structure(s) && Retirement(s) && Possible(s, Drain(p))
    ensures Retirement(After(s, Drain(p)))
  {
    var t := After(s, Drain(p));
    var r := s.prepared[p].retiring[s.stages[p].done];
    assert PreparedOk(s, p) && IsRetiring(s.prepared[p]);
    hide Structure;
    forall q | 0 <= q < |t.prepared|
      ensures StageOk(t, q)
    {
      assert StageOk(s, q) && StageOk(s, p);
    }
    forall x | 0 <= x < |t.regs|
      ensures RegOk(t, x)
    {
      assert RegOk(s, x) && StageOk(s, p);
    }
  }

  /** At the store, what is still active and was published is what the next snapshot keeps. */
  lemma StoreReg(s: State, p: nat, r: RegId)
    requires Structure(s) && Chain(s) && Retirement(s) && Possible(s, Store(p)) && r < |s.regs|
    ensures s.regs[r].born in s.history && Active(s, r) ==> Held(s, s.prepared[p].next, r)
    ensures Held(s, s.prepared[p].next, r) ==> Active(s, r) && (s.regs[r].born in s.history || s.regs[r].born == p + 1)
  {
    hide Linked;
    assert PreparedOk(s, p) && RegOk(s, r) && StageOk(s, p);
    assert s.prepared[p].previous == s.current;
    if s.regs[r].born in s.history && Active(s, r) {
      assert !Dropped(s.prepared[p], r);
    }
    if Held(s, s.prepared[p].next, r) {
      assert Entry(s, p, s.regs[r].name);
      if r in s.prepared[p].retiring {
        DroppedIsCurrent(s, p, r);
        assert false;
      }
      assert s.regs[r].retirer != Some(p);
    }
  }

  lemma StoreRetirement(s: State, p: nat)
    requires Structure(s) && Chain(s) && Retirement(s) && Possible(s, Store(p))
    ensures Retirement(After(s, Store(p)))
  {
    var t := After(s, Store(p));
    VersionIs(s, p + 1);
    forall q | 0 <= q < |t.prepared|
      ensures StageOk(t, q)
    {
      hide Structure, Chain;
      assert StageOk(s, q);
      if q == p {
        forall i | 0 <= i < |s.prepared[p].retiring|
          ensures !s.regs[s.prepared[p].retiring[i]].drained
        {
          assert RegOk(s, s.prepared[p].retiring[i]);
        }
      }
    }
    forall r | 0 <= r < |t.regs|
      ensures RegOk(t, r)
    {
      StoreRegOk(s, p, r);
    }
  }

  lemma StoreRetired(s: State, p: nat, r: RegId)
    requires Possible(s, Store(p)) && r < |s.regs| && RegOk(s, r)
    ensures var t := After(s, Store(p));
            && (t.regs[r].retirer.Some? ==> RetiredBy(t, t.regs[r].retirer.value, r))
            && (t.regs[r].drained ==> t.regs[r].retirer.Some? && t.stages[t.regs[r].retirer.value].Closing?)
  {
    hide Held;
  }

  lemma StoreRegOk(s: State, p: nat, r: RegId)
    requires Structure(s) && Chain(s) && Retirement(s) && Possible(s, Store(p)) && r < |s.regs|
    requires s.prepared[p].next.version == p + 1
    ensures RegOk(After(s, Store(p)), r)
  {
    StoreReg(s, p, r);
    assert RegOk(s, r);
    var t := After(s, Store(p));
    StoreRetired(s, p, r);
    hide Structure, Chain, Retirement, RetiredBy;
    assert Held(t, t.current, r) <==> Held(s, s.prepared[p].next, r);
    assert t.history == s.history + [p + 1];
  }

  // ---- channels ----

  /** The channels and the lists that hold them are as before; registrations, publications and history may be new. */
  ghost predicate SameChannels(s: State, t: State) {
    && t.channels == s.channels && |s.regs| <= |t.regs| && |s.stages| <= |t.stages|
    && (forall r | 0 <= r < |s.regs| ::
          && t.regs[r].channels == s.regs[r].channels && t.regs[r].drained == s.regs[r].drained
          && t.regs[r].born == s.regs[r].born && (s.regs[r].drained ==> t.regs[r].retirer == s.regs[r].retirer))
    && (forall r | |s.regs| <= r < |t.regs| :: t.regs[r].channels == [])
    && (forall p | 0 <= p < |s.stages| && s.stages[p].Closing? :: t.stages[p] == s.stages[p])
    && (forall p | 0 <= p < |t.stages| && t.stages[p].Closing? ::
          t.stages[p].pending == [] || (p < |s.stages| && s.stages[p].Closing?))
    && (forall v | v in s.history :: v in t.history)
  }

  lemma ChannelsSame(s: State, t: State)
    requires Channels(s) && SameChannels(s, t)
    ensures Channels(t)
  {
    forall c | 0 <= c < |t.channels|
      ensures ChannelOk(t, c)
    {
      assert ChannelOk(s, c);
    }
  }

  lemma OpenChannels(s: State, name: Name)
    requires Structure(s) && Retirement(s) && Channels(s)
    ensures Channels(After(s, Open(name)))
  {
    var t := After(s, Open(name));
    if name in s.current.entries {
      CurrentNames(s, name);
      assert RegOk(s, s.current.entries[name]);
    }
    hide Structure, Retirement;
    forall c | 0 <= c < |t.channels|
      ensures ChannelOk(t, c)
    {
      if c < |s.channels| {
        assert ChannelOk(s, c);
      }
    }
  }

  lemma {:induction false} AliveIs(channels: seq<Channel>, list: seq<ChannelId>)
    ensures forall c: ChannelId :: c in Alive(channels, list) <==> c in list && !(c < |channels| && channels[c].gone)
  {
    if list != [] {
      AliveIs(channels, list[1..]);
      assert forall c: ChannelId :: c in list <==> c == list[0] || c in list[1..];
    }
  }

  lemma {:induction false} AliveKnown(channels: seq<Channel>, list: seq<ChannelId>, n: nat)
    requires Known(list, n)
    ensures Known(Alive(channels, list), n)
  {
    if list != [] {
      AliveKnown(channels, list[1..], n);
    }
  }

  lemma TrackChannels(s: State, c: ChannelId)
    requires Channels(s) && Possible(s, Track(c))
    ensures Channels(After(s, Track(c)))
  {
    var t := After(s, Track(c));
    var r := s.channels[c].reg;
    AliveIs(s.channels, s.regs[r].channels);
    AliveKnown(s.channels, s.regs[r].channels, |s.channels|);
    assert forall x: ChannelId :: x in t.regs[r].channels <==> x == c || x in Alive(s.channels, s.regs[r].channels);
    forall x | 0 <= x < |t.channels|
      ensures ChannelOk(t, x)
    {
      assert ChannelOk(s, x);
    }
  }

  /** One channel changes, and stays what its lists need. */
  lemma ChannelChanges(s: State, c: ChannelId, x: Channel)
    requires Channels(s) && c < |s.channels| && ChannelOk(SetChannel(s, c, x), c)
    ensures Channels(SetChannel(s, c, x))
  {
    var t := SetChannel(s, c, x);
    forall y | 0 <= y < |t.channels|
      ensures ChannelOk(t, y)
    {
      assert ChannelOk(s, y);
    }
  }

  lemma CheckChannels(s: State, c: ChannelId)
    requires Retirement(s) && Channels(s) && Possible(s, Check(c))
    ensures Channels(After(s, Check(c)))
  {
    var t := After(s, Check(c));
    assert ChannelOk(s, c) && RegOk(s, s.channels[c].reg);
    hide Retirement;
    ChannelChanges(s, c, t.channels[c]);
  }

  lemma CloseNextChannels(s: State, p: nat)
    requires Channels(s) && Possible(s, CloseNext(p))
    ensures Channels(After(s, CloseNext(p)))
  {
    var t := After(s, CloseNext(p));
    var pending := s.stages[p].pending;
    assert forall c: ChannelId :: c in pending <==> c == pending[0] || c in pending[1..];
    forall c | 0 <= c < |t.channels|
      ensures ChannelOk(t, c)
    {
      assert ChannelOk(s, c);
    }
  }

  lemma DrainChannels(s: State, p: nat)
    requires Retirement(s) && Channels(s) && Possible(s, Drain(p))
    ensures Channels(After(s, Drain(p)))
  {
    var t := After(s, Drain(p));
    assert StageOk(s, p);
    hide Retirement;
    forall c | 0 <= c < |t.channels|
      ensures ChannelOk(t, c)
    {
      assert ChannelOk(s, c);
    }
  }

  lemma LeaveOrAttachChannels(s: State, step: Step)
    requires Channels(s) && Possible(s, step) && (step.Attach? || step.Leave?)
    ensures Channels(After(s, step))
  {
    var t := After(s, step);
    assert ChannelOk(s, step.c);
    ChannelChanges(s, step.c, t.channels[step.c]);
  }

  // ---- all steps ----

  predicate OfChannels(step: Step) {
    step.Open? || step.Track? || step.Attach? || step.Check? || step.Leave? || step.CloseNext?
  }

  lemma ChannelStepFrame(s: State, step: Step)
    requires Possible(s, step) && OfChannels(step)
    ensures var t := After(s, step);
            && SameRetirement(s, t) && t.commits == s.commits
            && forall p | 0 <= p < |s.stages| :: SameKind(s.stages[p], t.stages[p])
  {
  }

  lemma CurrentIs(s: State)
    requires Structure(s)
    ensures s.current.version <= |s.prepared| && s.current == SnapshotOf(s, s.current.version)
    ensures |s.stages| == |s.prepared|
  {
  }

  lemma ChannelStepKeeps(s: State, step: Step)
    requires Inv(s) && Possible(s, step) && OfChannels(step)
    ensures Inv(After(s, step))
  {
    hide Structure, Chain, Retirement, Channels, Possible, After, SameKind;
    var t := After(s, step);
    ChannelStepFrame(s, step);
    CurrentIs(s);
    StructureSame(s, t, s.current.version);
    RetirementSame(s, t);
    ChainSame(s, t);
    match step
    case Open(name) => OpenChannels(s, name);
    case Track(c) => TrackChannels(s, c);
    case Attach(_) => LeaveOrAttachChannels(s, step);
    case Check(c) => CheckChannels(s, c);
    case Leave(_) => LeaveOrAttachChannels(s, step);
    case CloseNext(p) => CloseNextChannels(s, p);
  }

  lemma PublishStepFrame(s: State, step: Step)
    requires Inv(s) && Possible(s, step) && !OfChannels(step) && !step.Prepare?
    ensures SameShape(s, After(s, step))
    ensures After(s, step).current == s.current || (step.Store? && step.p < |s.prepared| && After(s, step).current == SnapshotOf(s, step.p + 1))
  {
    hide Chain, Retirement, Channels, IsPrepared;
    CurrentIs(s);
    hide Structure;
  }

  lemma PublishStepChannels(s: State, step: Step)
    requires Inv(s) && Possible(s, step) && (step.Acquire? || step.Commit? || step.RetireNext? || step.Store?)
    ensures Channels(After(s, step))
  {
    var t := After(s, step);
    if step.RetireNext? {
      NextIsActive(s, step.p);
    }
    assert SameChannels(s, t) by {
      hide Structure, Chain, Retirement, Channels;
    }
    hide Structure, Chain, Retirement, Channels, SameChannels, After, Possible;
    ChannelsSame(s, t);
  }

  lemma PrepareChannels(s: State, step: Step)
    requires Inv(s) && Possible(s, step) && step.Prepare?
    ensures Channels(After(s, step))
  {
    var t := After(s, step);
    CurrentIs(s);
    hide Structure, Chain, Retirement, Channels, IsPrepared;
    forall r | |s.regs| <= r < |t.regs|
      ensures t.regs[r].channels == []
    {
      AddedIs(s, step.prepared, step.desired, step.added, r - |s.regs|);
    }
    ChannelsSame(s, t);
  }

  lemma PublishStepKeeps(s: State, step: Step)
    requires Inv(s) && Possible(s, step) && !OfChannels(step) && !step.Prepare?
    ensures Inv(After(s, step))
  {
    hide Structure, Chain, Retirement, Channels, Possible, After;
    var t := After(s, step);
    PublishStepFrame(s, step);
    CurrentIs(s);
    StructureSame(s, t, if t.current == s.current then s.current.version else step.p + 1);
    match step
    case Acquire(p) =>
      AcquireChain(s, p);
      AcquireRetirement(s, p);
      PublishStepChannels(s, step);
    case Commit(p, ok) =>
      CommitChain(s, p, ok);
      CommitKeeps(s, p, ok);
      PublishStepChannels(s, step);
    case RetireNext(p) =>
      StageStepChain(s, step);
      RetireNextRetirement(s, p);
      PublishStepChannels(s, step);
    case Store(p) =>
      StoreChain(s, p);
      StoreRetirement(s, p);
      PublishStepChannels(s, step);
    case Drain(p) =>
      StageStepChain(s, step);
      DrainRetirement(s, p);
      DrainChannels(s, p);
  }

  lemma CommitKeeps(s: State, p: nat, ok: bool)
    requires Retirement(s) && Chain(s) && Possible(s, Commit(p, ok))
    ensures Retirement(After(s, Commit(p, ok)))
  {
    hide Retirement, Possible, After, Locking;
    CommitRetirement(s, p, ok);
  }

  lemma StageStepChain(s: State, step: Step)
    requires Chain(s) && Possible(s, step) && (step.RetireNext? || step.Drain?)
    ensures Chain(After(s, step))
  {
    var t := After(s, step);
    assert forall p | 0 <= p < |s.stages| :: SameKind(s.stages[p], t.stages[p]);
    hide Chain, After, Possible;
    ChainSame(s, t);
  }

  /** Every step of every publisher, finisher and channel keeps the invariant. */
  lemma StepKeepsInv(s: State, step: Step)
    requires Inv(s) && Possible(s, step)
    ensures Inv(After(s, step))
  {
    hide Structure, Chain, Retirement, Channels, Possible, After;
    if step.Prepare? {
      PrepareStructure(s, step.prepared, step.desired, step.added);
      PrepareChain(s, step.prepared, step.desired, step.added);
      PrepareRetirement(s, step.prepared, step.desired, step.added);
      PrepareChannels(s, step);
    } else if OfChannels(step) {
      ChannelStepKeeps(s, step);
    } else {
      PublishStepKeeps(s, step);
    }
  }
}
