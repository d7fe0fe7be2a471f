/**
 The endpoint registry: immutable snapshots published optimistically, registrations that are retired when a
 snapshot drops them, and the channels attached to them.  One step is one atomic access or one lock-held region;
 publishers, finishers and channel creations interleave freely.
 */
module RegistryCore {
  import opened Basics
  import ConfigModel

  type RegId = nat
  type ChannelId = nat
  type Name = string

  /** The object behind a name: the diagnostics, an endpoint's runtime, or a reflected method. */
  datatype Owner = AdminOwner | RuntimeOwner(id: nat) | RpcOwner(id: nat)

  /** `complete` says that the endpoint and its owner are both present. */
  datatype Binding = Binding(complete: bool, owner: Owner, access: ConfigModel.Access)

  /**
   A registration is active until a publication retires it; the model remembers which one.  `drained` says that its
   channel list has been taken by `finish`.  `name` and `born` (the snapshot it was made for) never change.
   */
  datatype Registration = Registration(
    name: Name, born: nat, binding: Binding, retirer: Option<nat>, drained: bool, channels: seq<ChannelId>)

  datatype Snapshot = Snapshot(version: nat, entries: map<Name, RegId>)

  datatype Prepared = Prepared(previous: Snapshot, next: Snapshot, retiring: seq<RegId>)

  /** How far a prepared publication has come; `pending` holds channels taken from a registration and not yet closed. */
  datatype Stage = Ready | Committing | Retiring(done: nat) | Closing(done: nat, pending: seq<ChannelId>)

  datatype Phase = Loaded | Tracked | Attached | Checked

  /** `closed` counts closes after the attachment only.  A channel is `gone` when its peer or the wrapper drops it. */
  datatype Channel = Channel(reg: RegId, phase: Phase, closed: bool, gone: bool)

  /** `history` lists the versions that became current, `commits` those whose commit action succeeded. */
  datatype State = State(
    regs: seq<Registration>, current: Snapshot, prepared: seq<Prepared>, stages: seq<Stage>, lock: Option<nat>,
    channels: seq<Channel>, history: seq<nat>, commits: seq<nat>)

  const Start := State([], Snapshot(0, map[]), [], [], None, [], [0], [])

  predicate Active(s: State, r: RegId)
    requires r < |s.regs|
  {
    s.regs[r].retirer.None?
  }

  predicate ValidName(name: Name) {
    name != [] && '\0' !in name
  }

  predicate ValidDesired(desired: map<Name, Binding>) {
    forall name | name in desired :: ValidName(name) && desired[name].complete
  }

  /** What readers see: the binding behind every published name. */
  function Shown(s: State): map<Name, Binding> {
    map name | name in s.current.entries && s.current.entries[name] < |s.regs| :: s.regs[s.current.entries[name]].binding
  }

  /** The registration under this name is kept: same owner and same access assignment. */
  predicate Kept(regs: seq<Registration>, previous: map<Name, RegId>, name: Name, b: Binding) {
    name in previous && previous[name] < |regs|
    && regs[previous[name]].binding.owner == b.owner && regs[previous[name]].binding.access == b.access
  }

  // ---- prepare ----

  /** The entry for a name is the kept registration, or a new one among those added. */
  predicate Placed(regs: seq<Registration>, previous: map<Name, RegId>, version: nat, added: seq<Registration>,
                   name: Name, b: Binding, r: RegId)
  {
    if Kept(regs, previous, name, b) then r == previous[name]
    else |regs| <= r < |regs| + |added| && added[r - |regs|] == Registration(name, version, b, None, false, [])
  }

  ghost predicate AllPlaced(regs: seq<Registration>, previous: map<Name, RegId>, version: nat, added: seq<Registration>,
                            desired: map<Name, Binding>, entries: map<Name, RegId>)
  {
    && (forall name | name in entries ::
          name in desired && Placed(regs, previous, version, added, name, desired[name], entries[name]))
    && (forall i | 0 <= i < |added| :: added[i].name in entries && entries[added[i].name] == |regs| + i)
  }

  /** What `prepare` makes of the desired bindings, in whatever order it goes through them. */
  ghost predicate IsPrepared(regs: seq<Registration>, p: Prepared, desired: map<Name, Binding>, added: seq<Registration>) {
    && p.next.entries.Keys == desired.Keys
    && AllPlaced(regs, p.previous.entries, p.next.version, added, desired, p.next.entries)
    && IsRetiring(p)
  }

  /** The registrations of the previous snapshot that the next one does not keep, each once. */
  ghost predicate IsRetiring(p: Prepared) {
    && (forall i, j | 0 <= i < j < |p.retiring| :: p.retiring[i] != p.retiring[j])
    && (forall r :: r in p.retiring <==> Dropped(p, r))
  }

  ghost predicate Dropped(p: Prepared, r: RegId) {
    exists name | name in p.previous.entries :: p.previous.entries[name] == r
      && (name in p.next.entries ==> p.next.entries[name] != r)
  }

  // ---- steps ----

  datatype Step =
    | Prepare(prepared: Prepared, desired: map<Name, Binding>, added: seq<Registration>)
    | Acquire(p: nat)
    | Commit(p: nat, ok: bool)
    | RetireNext(p: nat)
    | Store(p: nat)
    | Drain(p: nat)
    | CloseNext(p: nat)
    | Open(name: Name)
    | Track(c: ChannelId)
    | Attach(c: ChannelId)
    | Check(c: ChannelId)
    | Leave(c: ChannelId)

  predicate AtStage(s: State, p: nat) {
    p < |s.stages| && p < |s.prepared|
  }

  ghost predicate Possible(s: State, step: Step) {
    match step
    case Prepare(p, desired, added) =>
      p.previous == s.current && p.next.version == |s.prepared| + 1 && ValidDesired(desired)
      && IsPrepared(s.regs, p, desired, added)
    case Acquire(p) => AtStage(s, p) && s.stages[p].Ready? && s.lock.None?
    case Commit(p, _) => AtStage(s, p) && s.stages[p].Committing?
    case RetireNext(p) => AtStage(s, p) && s.stages[p].Retiring? && s.stages[p].done < |s.prepared[p].retiring|
                          && s.prepared[p].retiring[s.stages[p].done] < |s.regs|
    case Store(p) => AtStage(s, p) && s.stages[p].Retiring? && s.stages[p].done == |s.prepared[p].retiring|
    case Drain(p) => AtStage(s, p) && s.stages[p].Closing? && s.stages[p].pending == []
                     && s.stages[p].done < |s.prepared[p].retiring|
                     && s.prepared[p].retiring[s.stages[p].done] < |s.regs|
    case CloseNext(p) => AtStage(s, p) && s.stages[p].Closing? && s.stages[p].pending != []
                         && s.stages[p].pending[0] < |s.channels|
    case Open(_) => true
    case Track(c) => c < |s.channels| && s.channels[c].phase.Loaded? && s.channels[c].reg < |s.regs|
    case Attach(c) => c < |s.channels| && s.channels[c].phase.Tracked?
    case Check(c) => c < |s.channels| && s.channels[c].phase.Attached? && s.channels[c].reg < |s.regs|
    case Leave(c) => c < |s.channels|
  }

  /** The list without the channels that no longer exist. */
  function Alive(channels: seq<Channel>, list: seq<ChannelId>): seq<ChannelId> {
    if list == [] then []
    else (if list[0] < |channels| && channels[list[0]].gone then [] else [list[0]]) + Alive(channels, list[1..])
  }

  /** Closing a channel that still exists; before the attachment this has no lasting effect. */
  function Shut(c: Channel): Channel {
    if c.gone || c.phase.Loaded? || c.phase.Tracked? then c else c.(closed := true)
  }

  ghost function SetReg(s: State, r: RegId, reg: Registration): State
    requires r < |s.regs|
  {
    s.(regs := s.regs[r := reg])
  }

  ghost function SetStage(s: State, p: nat, stage: Stage): State
    requires p < |s.stages|
  {
    s.(stages := s.stages[p := stage])
  }

  ghost function SetChannel(s: State, c: ChannelId, channel: Channel): State
    requires c < |s.channels|
  {
    s.(channels := s.channels[c := channel])
  }

  ghost function After(s: State, step: Step): State
    requires Possible(s, step)
  {
    match step
    case Prepare(p, _, added) =>
      s.(regs := s.regs + added, prepared := s.prepared + [p], stages := s.stages + [Ready])
    case Acquire(p) =>
      if s.prepared[p].previous.version == s.current.version then SetStage(s, p, Committing).(lock := Some(p)) else s
    case Commit(p, ok) =>
      if ok then SetStage(s, p, Retiring(0)).(commits := s.commits + [s.prepared[p].next.version]) else SetStage(s, p, Ready).(lock := None)
    case RetireNext(p) =>
      var k := s.stages[p].done;
      var r := s.prepared[p].retiring[k];
      SetStage(SetReg(s, r, s.regs[r].(retirer := Some(p))), p, Retiring(k + 1))
    case Store(p) =>
      SetStage(s, p, Closing(0, [])).(
        current := s.prepared[p].next, lock := None, history := s.history + [s.prepared[p].next.version])
    case Drain(p) =>
      var k := s.stages[p].done;
      var r := s.prepared[p].retiring[k];
      SetStage(SetReg(s, r, s.regs[r].(channels := [], drained := true)), p, Closing(k + 1, s.regs[r].channels))
    case CloseNext(p) =>
      var pending := s.stages[p].pending;
      SetStage(SetChannel(s, pending[0], Shut(s.channels[pending[0]])), p, Closing(s.stages[p].done, pending[1..]))
    case Open(name) =>
      if name in s.current.entries
      then s.(channels := s.channels + [Channel(s.current.entries[name], Loaded, false, false)]) else s
    case Track(c) =>
      var r := s.channels[c].reg;
      SetChannel(SetReg(s, r, s.regs[r].(channels := Alive(s.channels, s.regs[r].channels) + [c])),
                 c, s.channels[c].(phase := Tracked))
    case Attach(c) => SetChannel(s, c, s.channels[c].(phase := Attached))
    case Check(c) =>
      var checked := s.channels[c].(phase := Checked);
      SetChannel(s, c, if Active(s, s.channels[c].reg) then checked else Shut(checked))
    case Leave(c) => SetChannel(s, c, s.channels[c].(gone := true))
  }
}
