/** What every step of the registry keeps. */
module RegistryInvariant {
  import opened Basics
  import opened RegistryCore

  /** The registration is the snapshot's entry for its name. */
  predicate Held(s: State, snapshot: Snapshot, r: RegId) {
    r < |s.regs| && s.regs[r].name in snapshot.entries && snapshot.entries[s.regs[r].name] == r
  }

  function SnapshotOf(s: State, v: nat): Snapshot
    requires v <= |s.prepared|
  {
    if v == 0 then Snapshot(0, map[]) else s.prepared[v - 1].next
  }

  // ---- structure ----

  predicate Entry(s: State, p: nat, name: Name)
    requires p < |s.prepared| && name in s.prepared[p].next.entries
  {
    var r := s.prepared[p].next.entries[name];
    && r < |s.regs| && s.regs[r].name == name
    && (s.regs[r].born == p + 1
        || (name in s.prepared[p].previous.entries && s.prepared[p].previous.entries[name] == r))
  }

  ghost predicate PreparedOk(s: State, p: nat)
    requires p < |s.prepared|
  {
    var x := s.prepared[p];
    && x.next.version == p + 1 && x.previous.version <= p && x.previous == SnapshotOf(s, x.previous.version)
    && (forall name | name in x.next.entries :: Entry(s, p, name))
    && IsRetiring(x)
  }

  ghost predicate Structure(s: State) {
    && |s.stages| == |s.prepared|
    && (forall p | 0 <= p < |s.prepared| :: PreparedOk(s, p))
    && s.current.version <= |s.prepared| && s.current == SnapshotOf(s, s.current.version)
    && (forall r | 0 <= r < |s.regs| ::
          1 <= s.regs[r].born <= |s.prepared| && Held(s, s.prepared[s.regs[r].born - 1].next, r))
  }

  // ---- the chain of publications ----

  predicate Link(s: State, i: nat)
    requires 0 < i < |s.history|
  {
    1 <= s.history[i] <= |s.prepared| && s.prepared[s.history[i] - 1].previous.version == s.history[i - 1]
  }

  /** Each published snapshot was prepared from the one published before it; the last one is current. */
  ghost predicate Linked(s: State) {
    && |s.history| > 0 && s.history[0] == 0 && s.history[|s.history| - 1] == s.current.version
    && (forall i | 0 < i < |s.history| :: Link(s, i))
  }

  /** At most one publication holds the lock, and it was prepared from the current snapshot. */
  ghost predicate Locking(s: State) {
    && |s.stages| == |s.prepared|
    && (s.lock.Some? ==> s.lock.value < |s.stages|)
    && (forall p | 0 <= p < |s.stages| :: (s.stages[p].Committing? || s.stages[p].Retiring?) <==> s.lock == Some(p))
    && (s.lock.Some? ==> s.prepared[s.lock.value].previous.version == s.current.version)
  }

  /** What is past its commit action and its store is exactly what the histories list. */
  ghost predicate Recorded(s: State) {
    && |s.stages| == |s.prepared| && |s.history| > 0
    && (forall p | 0 <= p < |s.prepared| :: s.stages[p].Closing? <==> p + 1 in s.history)
    && s.commits == s.history[1..] + Committed(s)
  }

  ghost function Committed(s: State): seq<nat> {
    if s.lock.Some? && s.lock.value < |s.stages| && s.stages[s.lock.value].Retiring? then [s.lock.value + 1] else []
  }

  ghost predicate Chain(s: State) {
    Linked(s) && Locking(s) && Recorded(s)
  }

  // ---- retirement ----

  ghost predicate RetiredBy(s: State, p: nat, r: RegId) {
    && p < |s.stages| && p < |s.prepared|
    && match s.stages[p]
       case Retiring(k) => exists i | 0 <= i < |s.prepared[p].retiring| && i < k :: s.prepared[p].retiring[i] == r
       case Closing(_, _) => r in s.prepared[p].retiring
       case _ => false
  }

  ghost predicate Listed(s: State, p: nat)
    requires p < |s.prepared|
  {
    forall i | 0 <= i < |s.prepared[p].retiring| :: s.prepared[p].retiring[i] < |s.regs|
  }

  ghost predicate StageOk(s: State, p: nat)
    requires p < |s.stages| && p < |s.prepared|
  {
    && Listed(s, p)
    && match s.stages[p]
       case Retiring(k) =>
         && k <= |s.prepared[p].retiring|
         && (forall i | 0 <= i < k :: s.regs[s.prepared[p].retiring[i]].retirer == Some(p))
       case Closing(k, _) =>
         && k <= |s.prepared[p].retiring|
         && (forall i | 0 <= i < |s.prepared[p].retiring| ::
               s.regs[s.prepared[p].retiring[i]].retirer == Some(p)
               && (s.regs[s.prepared[p].retiring[i]].drained <==> i < k))
       case _ => true
  }

  ghost predicate RegOk(s: State, r: RegId)
    requires r < |s.regs|
  {
    && (s.regs[r].retirer.Some? ==> RetiredBy(s, s.regs[r].retirer.value, r))
    && (s.regs[r].drained ==> s.regs[r].retirer.Some? && s.stages[s.regs[r].retirer.value].Closing?)
    && (s.regs[r].born in s.history && Active(s, r) ==> Held(s, s.current, r))
    && (Held(s, s.current, r) ==> s.regs[r].born in s.history
                                  && (Active(s, r) || (s.lock.Some? && s.regs[r].retirer == s.lock)))
    && (s.regs[r].born !in s.history ==> Active(s, r))
  }

  ghost predicate Retirement(s: State) {
    && |s.stages| == |s.prepared|
    && (forall p | 0 <= p < |s.prepared| :: StageOk(s, p))
    && (forall r | 0 <= r < |s.regs| :: RegOk(s, r))
  }

  // ---- channels ----

  ghost predicate Due(s: State, c: ChannelId)
    requires c < |s.channels| && s.channels[c].reg < |s.regs|
  {
    && s.regs[s.channels[c].reg].retirer.Some? && s.regs[s.channels[c].reg].retirer.value < |s.stages|
    && s.stages[s.regs[s.channels[c].reg].retirer.value].Closing?
    && c in s.stages[s.regs[s.channels[c].reg].retirer.value].pending
  }

  ghost predicate ChannelOk(s: State, c: ChannelId)
    requires c < |s.channels|
  {
    var x := s.channels[c];
    && x.reg < |s.regs| && s.regs[x.reg].born in s.history
    && (!x.phase.Loaded? && !x.gone && !s.regs[x.reg].drained ==> c in s.regs[x.reg].channels)
    && (x.phase.Checked? && !x.gone && s.regs[x.reg].drained ==> x.closed || Due(s, c))
  }

  predicate Known(list: seq<ChannelId>, n: nat) {
    forall i | 0 <= i < |list| :: list[i] < n
  }

  ghost predicate Channels(s: State) {
    && (forall c | 0 <= c < |s.channels| :: ChannelOk(s, c))
    && (forall r | 0 <= r < |s.regs| :: Known(s.regs[r].channels, |s.channels|))
    && (forall p | 0 <= p < |s.stages| :: s.stages[p].Closing? ==> Known(s.stages[p].pending, |s.channels|))
  }

  ghost predicate Inv(s: State) {
    Structure(s) && Chain(s) && Retirement(s) && Channels(s)
  }
}
