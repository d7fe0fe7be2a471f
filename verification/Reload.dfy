/**
 Applying a configuration generation, as values: what is staged, what the publication makes of it, and when it goes
 through.  Construction, reflection, policy and refresh outcomes and what other publishers do are inputs.
 */
module Reloads {
  import opened Basics
  import opened ConfigModel
  import opened ConfigDiffs
  import opened RegistryCore

  type RuntimeId = nat
  type AdapterId = nat
  type MemberId = nat

  datatype Runtime = Runtime(config: Endpoint, generation: nat, alive: bool, committed: bool)

  /** A reflected method that stands under a name. */
  datatype Rpc = Rpc(id: nat, access: Access)

  /**
   How the steps that depend on the outside end: which constructions fail, what reflection finds, whether the policy
   can be prepared and activated, what another publisher publishes between preparation and publication, and at
   which point the refresh fails.
   */
  datatype Outcomes = Outcomes(
    backend: string -> bool, publisher: bool, runtime: string -> bool, rpcs: Option<map<string, Rpc>>, catalog: bool,
    policy: bool, rival: Option<map<string, Binding>>, activation: bool, refresh: Option<nat>)

  /** Fixed at startup: whether access control is on, and the diagnostic names, with whether they are writable. */
  datatype Setup = Setup(secured: bool, admin: map<string, bool>)

  /** All a reload may change; `names` is what the registry shows and `members` the access members behind the names. */
  datatype View = View(
    setup: Setup, config: Config, hasConfig: bool, generation: nat, runtimes: map<string, RuntimeId>,
    store: map<RuntimeId, Runtime>, adapters: map<string, AdapterId>, rpcs: map<string, Rpc>, policy: nat, publisher: nat,
    members: map<string, MemberId>, names: map<string, Binding>)

  const Unassigned := Access("DEFAULT", 0)

  const NoConfig := Config("", 0, 0, [], map[], 0, Route("", ""), Defaults(Unassigned, Unassigned, Unassigned))

  predicate AllBelow(ids: set<nat>, bound: nat) {
    forall id | id in ids :: id < bound
  }

  predicate MapBelow(ids: map<string, nat>, bound: nat) {
    forall name | name in ids :: ids[name] < bound
  }

  // ---- staging, as values ----

  /** An adapter survives exactly when its back end is configured as before. */
  ghost predicate AdaptersOk(v: View, d: Config, next: map<string, AdapterId>, first: nat) {
    && next.Keys == d.backends.Keys
    && forall b | b in next ::
         if SameBackend(v.config, d, b) && b in v.adapters then next[b] == v.adapters[b] else next[b] >= first
  }

  predicate SameBindings(e: Endpoint, before: map<string, AdapterId>, after: map<string, AdapterId>) {
    forall b | b in Uses(e) :: b in before && b in after && before[b] == after[b]
  }

  /** The runtime under a name survives: same reader topology, same back ends. */
  predicate Keeps(c: Config, d: Config, name: string) {
    name in Common(c, d) && SameTopology(c, d, name) && !Touched(c, d, name)
  }

  /** Every endpoint's runtime runs its configuration, and every configured back end has its adapter. */
  ghost predicate Consistent(v: View) {
    && (v.hasConfig ==> WellFormed(v.config)) && (!v.hasConfig ==> v.config == NoConfig)
    && v.runtimes.Keys == Endpoints(v.config).Keys && v.adapters.Keys == v.config.backends.Keys
    && (forall name | name in v.runtimes :: v.runtimes[name] in v.store
          && v.store[v.runtimes[name]].config == Endpoints(v.config)[name]
          && v.store[v.runtimes[name]].alive && v.store[v.runtimes[name]].committed)
    && (forall m, n | m in v.runtimes && n in v.runtimes && m != n :: v.runtimes[m] != v.runtimes[n])
    && (v.setup.secured ==> v.members.Keys == v.names.Keys)
  }

  /** Whether a runtime is kept is decided by the two configurations alone. */
  lemma KeptIff(v: View, d: Config, next: map<string, AdapterId>, first: nat, name: string)
    requires Consistent(v) && WellFormed(d) && AdaptersOk(v, d, next, first) && name in Endpoints(d)
    requires MapBelow(v.adapters, first)
    ensures Keeps(v.config, d, name) <==>
              name in v.runtimes && SameReaderTopology(v.store[v.runtimes[name]].config, Endpoints(d)[name])
              && SameBindings(Endpoints(d)[name], v.adapters, next)
  {
    hide SameReaderTopology, ByName;
    EndpointUses(d, name);
    var e := Endpoints(d)[name];
    var both := Uses(e) * ChangedBackends(v.config, d);
    if SameBindings(e, v.adapters, next) {
      assert both == {};
    } else {
      var b :| b in Uses(e) && !(b in v.adapters && b in next && v.adapters[b] == next[b]);
      assert b in both;
    }
  }

  // ---- runtimes ----

  /** The runtimes staged for some of the names: kept ones with an update, new ones not yet active. */
  ghost predicate Staged(v: View, d: Config, g: nat, names: set<string>, first: nat,
                         runtimes: map<string, RuntimeId>, made: map<RuntimeId, Runtime>, updates: map<RuntimeId, Endpoint>)
  {
    && names <= Endpoints(d).Keys && runtimes.Keys == names && updates.Keys <= v.store.Keys
    && (forall id | id in made :: id >= first)
    && (forall name | name in names :: StagedOne(v, d, g, name, first, runtimes[name], made, updates))
    && (forall m, n | m in names && n in names && m != n :: runtimes[m] != runtimes[n])
  }

  ghost predicate StagedOne(v: View, d: Config, g: nat, name: string, first: nat, id: RuntimeId,
                            made: map<RuntimeId, Runtime>, updates: map<RuntimeId, Endpoint>)
    requires name in Endpoints(d)
  {
    if Keeps(v.config, d, name)
    then name in v.runtimes && id == v.runtimes[name] && id < first && id in updates && updates[id] == Endpoints(d)[name]
    else id >= first && id in made && made[id] == Runtime(Endpoints(d)[name], g, true, false)
  }

  lemma StageKept(v: View, d: Config, g: nat, names: set<string>, first: nat, runtimes: map<string, RuntimeId>,
                  made: map<RuntimeId, Runtime>, updates: map<RuntimeId, Endpoint>, name: string)
    requires Staged(v, d, g, names, first, runtimes, made, updates) && Consistent(v)
    requires name in Endpoints(d) && name !in names && Keeps(v.config, d, name)
    requires name in v.runtimes && v.runtimes[name] < first
    ensures Staged(v, d, g, names + {name}, first, runtimes[name := v.runtimes[name]], made,
                   updates[v.runtimes[name] := Endpoints(d)[name]])
  {
    hide Keeps, ByName, WellFormed;
    var more := updates[v.runtimes[name] := Endpoints(d)[name]];
    forall m | m in names
      ensures runtimes[m] != v.runtimes[name] && StagedOne(v, d, g, m, first, runtimes[m], made, more)
    {
      assert StagedOne(v, d, g, m, first, runtimes[m], made, updates);
    }
    hide StagedOne, Consistent;
  }

  lemma StageNew(v: View, d: Config, g: nat, names: set<string>, first: nat, runtimes: map<string, RuntimeId>,
                 made: map<RuntimeId, Runtime>, updates: map<RuntimeId, Endpoint>, name: string, id: RuntimeId)
    requires Staged(v, d, g, names, first, runtimes, made, updates)
    requires name in Endpoints(d) && name !in names && !Keeps(v.config, d, name) && id >= first && id !in made
    ensures Staged(v, d, g, names + {name}, first, runtimes[name := id],
                   made[id := Runtime(Endpoints(d)[name], g, true, false)], updates)
  {
    hide Keeps, ByName, Consistent;
    assert forall m | m in names :: StagedOne(v, d, g, m, first, runtimes[m], made, updates);
    assert forall m | m in names :: runtimes[m] != id;
  }

  lemma NewAt(c: Config, i: nat)
    requires WellFormed(c) && i < |c.endpoints|
    ensures FullName(c.nameSpace, c.endpoints[i]) !in ByName(c.nameSpace, c.endpoints[..i])
  {
    hide FullName, Uses, ByName;
    LastIsNew(c.nameSpace, c.endpoints[..i + 1]);
    assert c.endpoints[..i + 1][..i] == c.endpoints[..i];
  }

  /** With distinct names the i-th endpoint is the one under its name. */
  lemma EndpointAt(c: Config, i: nat)
    requires WellFormed(c) && i < |c.endpoints|
    ensures FullName(c.nameSpace, c.endpoints[i]) in Endpoints(c)
    ensures Endpoints(c)[FullName(c.nameSpace, c.endpoints[i])] == c.endpoints[i]
  {
    hide FullName, Uses, ByName;
    ByNameIs(c.nameSpace, c.endpoints);
    var name := FullName(c.nameSpace, c.endpoints[i]);
    var j :| 0 <= j < |c.endpoints| && c.endpoints[j] == Endpoints(c)[name] && FullName(c.nameSpace, c.endpoints[j]) == name;
    assert i == j;
  }

  // ---- endpoint names ----

  function Names(nameSpace: string, e: Endpoint): seq<string> {
    [FullName(nameSpace, e)] + e.aliases
  }

  /** No name, diagnostic, endpoint, alias or method, is used twice. */
  predicate DistinctNames(c: Config, admin: set<string>, rpcs: set<string>) {
    && DistinctUpTo(c, admin, |c.endpoints|)
    && forall name | name in rpcs :: name !in admin && !NamedUpTo(c, |c.endpoints|, name)
  }

  predicate DistinctUpTo(c: Config, admin: set<string>, n: nat)
    requires n <= |c.endpoints|
  {
    && (forall i | 0 <= i < n :: NoRepeats(Names(c.nameSpace, c.endpoints[i])))
    && (forall i, j | 0 <= i < j < n :: Apart(Names(c.nameSpace, c.endpoints[i]), Names(c.nameSpace, c.endpoints[j])))
    && (forall i | 0 <= i < n :: forall name | name in Names(c.nameSpace, c.endpoints[i]) :: name !in admin)
  }

  predicate NamedUpTo(c: Config, n: nat, name: string)
    requires n <= |c.endpoints|
  {
    exists i | 0 <= i < n :: name in Names(c.nameSpace, c.endpoints[i])
  }

  predicate Apart(s: seq<string>, t: seq<string>) {
    forall i | 0 <= i < |s| :: s[i] !in t
  }

  predicate NoRepeats(s: seq<string>) {
    forall i, j | 0 <= i < j < |s| :: s[i] != s[j]
  }

  /** What the names are to lead to. */
  datatype Targets = Targets(config: Config, admin: map<string, bool>, runtimes: map<string, RuntimeId>, rpcs: map<string, Rpc>)

  function AdminBinding(c: Config, writable: bool): Binding {
    Binding(true, AdminOwner, if writable then c.defaults.adminWrite else c.defaults.adminRead)
  }

  function EndpointBinding(c: Config, id: RuntimeId, e: Endpoint): Binding {
    Binding(true, RuntimeOwner(id), if e.access.Some? then e.access.value else c.defaults.pv)
  }

  function RpcBinding(rpc: Rpc): Binding {
    Binding(true, RpcOwner(rpc.id), rpc.access)
  }

  /**
   Every diagnostic name, every name of the first `n` endpoints and the methods' names in `done` lead where they
   should, with the access assigned to them, and no other name is bound.
   */
  ghost predicate Bound(x: Targets, n: nat, done: set<string>, bindings: map<string, Binding>)
    requires n <= |x.config.endpoints| && done <= x.rpcs.Keys
  {
    && (forall name | name in x.admin :: name in bindings && bindings[name] == AdminBinding(x.config, x.admin[name]))
    && (forall i | 0 <= i < n :: BoundOne(x, x.config.endpoints[i], bindings))
    && (forall name | name in done :: name in bindings && bindings[name] == RpcBinding(x.rpcs[name]))
    && (forall name | name in bindings :: name in x.admin || NamedUpTo(x.config, n, name) || name in done)
  }

  ghost predicate BoundOne(x: Targets, e: Endpoint, bindings: map<string, Binding>) {
    && FullName(x.config.nameSpace, e) in x.runtimes
    && forall name | name in Names(x.config.nameSpace, e) ::
         name in bindings && bindings[name] == EndpointBinding(x.config, x.runtimes[FullName(x.config.nameSpace, e)], e)
  }

  ghost predicate AllBound(x: Targets, bindings: map<string, Binding>) {
    Bound(x, |x.config.endpoints|, x.rpcs.Keys, bindings)
  }

  /** Writable diagnostics get the administrators' write access and the others their read access. */
  lemma DiagnosticsAreGuarded(x: Targets, bindings: map<string, Binding>, name: string)
    requires AllBound(x, bindings) && name in x.admin
    ensures name in bindings && bindings[name].owner == AdminOwner && bindings[name].complete
    ensures x.admin[name] ==> bindings[name].access == x.config.defaults.adminWrite
    ensures !x.admin[name] ==> bindings[name].access == x.config.defaults.adminRead
  {
  }

  /** Every name of an endpoint leads to its runtime; its own assignment wins over the default. */
  lemma EndpointsAreGuarded(x: Targets, bindings: map<string, Binding>, i: nat, name: string)
    requires AllBound(x, bindings) && i < |x.config.endpoints|
    requires var e := x.config.endpoints[i];
             name in e.aliases || name == (if x.config.nameSpace == "" then e.name else x.config.nameSpace + ":" + e.name)
    ensures var e := x.config.endpoints[i];
            && FullName(x.config.nameSpace, e) in x.runtimes && name in bindings && bindings[name].complete
            && bindings[name].owner == RuntimeOwner(x.runtimes[FullName(x.config.nameSpace, e)])
            && (e.access.Some? ==> bindings[name].access == e.access.value)
            && (e.access.None? ==> bindings[name].access == x.config.defaults.pv)
  {
    assert BoundOne(x, x.config.endpoints[i], bindings);
    assert name in Names(x.config.nameSpace, x.config.endpoints[i]);
  }

  /** A method is bound to its own object with its own assignment, and nothing else is bound. */
  lemma NothingElseIsBound(x: Targets, bindings: map<string, Binding>, name: string)
    requires AllBound(x, bindings) && name in bindings
    ensures name in x.rpcs ==> bindings[name] == Binding(true, RpcOwner(x.rpcs[name].id), x.rpcs[name].access)
    ensures name !in x.rpcs && name !in x.admin ==>
              exists i | 0 <= i < |x.config.endpoints| :: name in Names(x.config.nameSpace, x.config.endpoints[i])
  {
    hide Names;
  }

  /** The registry takes every one of these names. */
  ghost predicate ValidNames(c: Config, admin: set<string>, rpcs: set<string>) {
    && (forall name | name in admin :: ValidName(name))
    && (forall i | 0 <= i < |c.endpoints| :: forall name | name in Names(c.nameSpace, c.endpoints[i]) :: ValidName(name))
    && (forall name | name in rpcs :: ValidName(name))
  }

  lemma ValidIff(x: Targets, bindings: map<string, Binding>)
    requires AllBound(x, bindings)
    ensures ValidDesired(bindings) <==> ValidNames(x.config, x.admin.Keys, x.rpcs.Keys)
  {
    hide Names, ValidName, FullName;
    if ValidDesired(bindings) {
      forall i, name | 0 <= i < |x.config.endpoints| && name in Names(x.config.nameSpace, x.config.endpoints[i])
        ensures ValidName(name)
      {
        assert BoundOne(x, x.config.endpoints[i], bindings);
      }
    }
    if ValidNames(x.config, x.admin.Keys, x.rpcs.Keys) {
      forall name | name in bindings
        ensures ValidName(name) && bindings[name].complete
      {
        if name !in x.admin && name !in x.rpcs {
          var i :| 0 <= i < |x.config.endpoints| && name in Names(x.config.nameSpace, x.config.endpoints[i]);
          assert BoundOne(x, x.config.endpoints[i], bindings);
        }
      }
    }
  }

  // ---- access members ----

  /** A name keeps its access member exactly as long as it keeps its binding. */
  ghost predicate MembersOk(v: View, desired: map<string, Binding>, next: map<string, MemberId>, first: nat) {
    && next.Keys == desired.Keys
    && forall name | name in next ::
         if name in v.names && name in v.members && v.names[name] == desired[name]
         then next[name] == v.members[name] else next[name] >= first
  }

  // ---- the commit ----

  function Updated(r: Runtime, e: Endpoint, g: nat): Runtime {
    r.(config := e, generation := g)
  }

  function StoreAfter(store: map<RuntimeId, Runtime>, g: nat, made: map<RuntimeId, Runtime>,
                      updates: map<RuntimeId, Endpoint>): map<RuntimeId, Runtime>
  {
    map id | id in store.Keys + made.Keys ::
      if id in made then made[id].(committed := true)
      else if id in updates then Updated(store[id], updates[id], g) else store[id]
  }

  /** The runtimes of the previous generation that the next one does not keep. */
  function Retired(before: map<string, RuntimeId>, after: map<string, RuntimeId>): set<RuntimeId> {
    set name | name in before && (name !in after || after[name] != before[name]) :: before[name]
  }

  lemma CommitIsConsistent(v: View, d: Config, g: nat, first: nat, runtimes: map<string, RuntimeId>,
                           made: map<RuntimeId, Runtime>, updates: map<RuntimeId, Endpoint>, w: View)
    requires Consistent(v) && WellFormed(d) && Staged(v, d, g, Endpoints(d).Keys, first, runtimes, made, updates)
    requires AllBelow(v.store.Keys, first)
    requires w.config == d && w.hasConfig && w.runtimes == runtimes && w.adapters.Keys == d.backends.Keys
    requires w.store == StoreAfter(v.store, g, made, updates) && (w.setup.secured ==> w.members.Keys == w.names.Keys)
    ensures Consistent(w)
  {
    hide WellFormed, ByName, Keeps;
    forall name | name in runtimes
      ensures runtimes[name] in w.store && w.store[runtimes[name]].config == Endpoints(d)[name]
      ensures w.store[runtimes[name]].alive && w.store[runtimes[name]].committed
    {
      assert StagedOne(v, d, g, name, first, runtimes[name], made, updates);
    }
  }

  /** What is retired is not in use any more. */
  lemma RetiredAreUnused(v: View, d: Config, g: nat, first: nat, runtimes: map<string, RuntimeId>,
                         made: map<RuntimeId, Runtime>, updates: map<RuntimeId, Endpoint>, name: string)
    requires Consistent(v) && Staged(v, d, g, Endpoints(d).Keys, first, runtimes, made, updates) && name in runtimes
    requires AllBelow(v.store.Keys, first)
    ensures runtimes[name] !in Retired(v.runtimes, runtimes)
  {
    hide ByName, Keeps;
    assert StagedOne(v, d, g, name, first, runtimes[name], made, updates);
  }

  lemma RetireIsConsistent(v: View, w: View)
    requires Consistent(v) && w == v.(store := w.store) && w.store.Keys == v.store.Keys
    requires forall name | name in v.runtimes :: w.store[v.runtimes[name]] == v.store[v.runtimes[name]]
    ensures Consistent(w)
  {
    hide WellFormed, ByName;
  }

  // ---- the whole reload ----

  /** Staging goes through. */
  ghost predicate Stages(v: View, d: Config, o: Outcomes) {
    && (forall b | b in d.backends :: !o.backend(b))
    && (o.publisher ==> ReusesAlarms(v.hasConfig, v.config, d))
    && (forall i | 0 <= i < |d.endpoints| :: !o.runtime(FullName(d.nameSpace, d.endpoints[i])))
    && o.rpcs.Some? && !o.catalog && DistinctNames(d, v.setup.admin.Keys, o.rpcs.value.Keys)
  }

  /** A policy is prepared and activated by every reload of a secured application, but not by its first load. */
  predicate ChangesPolicy(v: View) {
    v.setup.secured && v.hasConfig
  }

  /** The generation is prepared for publication. */
  ghost predicate IsReady(v: View, d: Config, o: Outcomes) {
    && Stages(v, d, o) && !(ChangesPolicy(v) && o.policy)
    && ValidNames(d, v.setup.admin.Keys, o.rpcs.value.Keys)
  }

  /** Another publisher was faster. */
  ghost predicate Outrun(v: View, d: Config, o: Outcomes) {
    IsReady(v, d, o) && o.rival.Some? && ValidDesired(o.rival.value)
  }

  ghost predicate Succeeds(v: View, d: Config, o: Outcomes) {
    IsReady(v, d, o) && !Outrun(v, d, o) && !(ChangesPolicy(v) && o.activation)
  }

  /** What another publisher changes: the names and the access members behind them. */
  ghost predicate OnlyNames(v: View, names: map<string, Binding>, w: View) {
    && w == v.(names := names, members := w.members)
    && (!v.setup.secured ==> w.members == v.members)
  }

  predicate ReusesAlarms(hasConfig: bool, c: Config, d: Config) {
    hasConfig && c.stream == d.stream && SameBackend(c, d, d.stream.backend)
  }

  /** Everything is new: configuration, generation, policy, names, members, runtimes and adapters, kept or rebuilt as they must. */
  ghost predicate Applied(v: View, d: Config, g: nat, w: View) {
    && w.setup == v.setup && w.config == d && w.hasConfig && w.generation == g
    && w.policy == (if ChangesPolicy(v) then d.policy else v.policy)
    && (w.publisher == v.publisher <==> ReusesAlarms(v.hasConfig, v.config, d))
    && RuntimesApplied(v, d, g, w) && AdaptersApplied(v, d, w.adapters)
    && AllBound(Targets(d, v.setup.admin, w.runtimes, w.rpcs), w.names)
    && MembersApplied(v, w)
  }

  ghost predicate MembersApplied(v: View, w: View) {
    if v.setup.secured then
      && w.members.Keys == w.names.Keys
      && forall name | name in w.names ::
           (name in v.members && w.members[name] == v.members[name] <==> name in v.names && v.names[name] == w.names[name])
    else w.members == v.members
  }

  lemma MembersAre(v: View, w: View, first: nat)
    requires Consistent(v) && MapBelow(v.members, first) && w.setup == v.setup
    requires if v.setup.secured then MembersOk(v, w.names, w.members, first) else w.members == v.members
    ensures MembersApplied(v, w)
  {
    hide WellFormed, ByName;
  }

  ghost predicate RuntimesApplied(v: View, d: Config, g: nat, w: View) {
    && w.runtimes.Keys == Endpoints(d).Keys
    && forall name | name in w.runtimes ::
         && (name in v.runtimes && w.runtimes[name] == v.runtimes[name] <==> Keeps(v.config, d, name))
         && (w.runtimes[name] in v.store <==> Keeps(v.config, d, name))
         && w.runtimes[name] in w.store && w.store[w.runtimes[name]] == Runtime(Endpoints(d)[name], g, true, true)
  }

  ghost predicate AdaptersApplied(v: View, d: Config, next: map<string, AdapterId>) {
    && next.Keys == d.backends.Keys
    && forall b | b in next :: (b in v.adapters && next[b] == v.adapters[b] <==> SameBackend(v.config, d, b))
  }

  lemma AdaptersAre(v: View, d: Config, first: nat, next: map<string, AdapterId>)
    requires Consistent(v) && AdaptersOk(v, d, next, first) && MapBelow(v.adapters, first)
    ensures AdaptersApplied(v, d, next) && next.Keys == d.backends.Keys
  {
    hide WellFormed, ByName;
  }

  lemma RuntimesAre(v: View, d: Config, g: nat, first: nat, runtimes: map<string, RuntimeId>,
                    made: map<RuntimeId, Runtime>, updates: map<RuntimeId, Endpoint>, w: View)
    requires Consistent(v) && Staged(v, d, g, Endpoints(d).Keys, first, runtimes, made, updates)
    requires AllBelow(v.store.Keys, first)
    requires w.runtimes == runtimes && w.store == StoreAfter(v.store, g, made, updates)
    ensures RuntimesApplied(v, d, g, w)
  {
    hide WellFormed, ByName, Keeps;
    forall name | name in runtimes
      ensures name in v.runtimes && runtimes[name] == v.runtimes[name] <==> Keeps(v.config, d, name)
      ensures runtimes[name] in v.store <==> Keeps(v.config, d, name)
      ensures runtimes[name] in w.store && w.store[runtimes[name]] == Runtime(Endpoints(d)[name], g, true, true)
    {
      assert StagedOne(v, d, g, name, first, runtimes[name], made, updates);
    }
  }

  lemma RetireKeepsRuntimes(v: View, d: Config, g: nat, w: View, x: View)
    requires RuntimesApplied(v, d, g, w) && x == w.(store := x.store) && x.store.Keys == w.store.Keys
    requires forall name | name in w.runtimes && w.runtimes[name] in w.store ::
               x.store[w.runtimes[name]] == w.store[w.runtimes[name]]
    ensures RuntimesApplied(v, d, g, x)
  {
    hide ByName, Keeps;
  }

  /** A staged generation. */
  datatype Plan = Plan(
    adapters: map<string, AdapterId>, runtimes: map<string, RuntimeId>, made: map<RuntimeId, Runtime>,
    updates: map<RuntimeId, Endpoint>, rpcs: map<string, Rpc>, bindings: map<string, Binding>)

  /** Where the ids of new runtimes, adapters and members start. */
  datatype Marks = Marks(runtime: nat, adapter: nat, member: nat)

  /** A generation prepared for publication as number `p` of the registry. */
  datatype Candidate = Candidate(plan: Plan, members: map<string, MemberId>, p: nat)

  ghost predicate PlanOk(v: View, d: Config, g: nat, plan: Plan, marks: Marks) {
    && WellFormed(d) && AllBelow(v.store.Keys, marks.runtime) && MapBelow(v.adapters, marks.adapter)
    && MapBelow(v.members, marks.member)
    && AdaptersOk(v, d, plan.adapters, marks.adapter)
    && Staged(v, d, g, Endpoints(d).Keys, marks.runtime, plan.runtimes, plan.made, plan.updates)
    && AllBound(Targets(d, v.setup.admin, plan.runtimes, plan.rpcs), plan.bindings)
  }

  ghost predicate MembersFit(v: View, plan: Plan, members: map<string, MemberId>, marks: Marks) {
    if v.setup.secured then MembersOk(v, plan.bindings, members, marks.member) else members == v.members
  }

  /** What the publication of a staged generation makes of the application. */
  function Published(v: View, d: Config, g: nat, plan: Plan, members: map<string, MemberId>): View
    requires plan.updates.Keys <= v.store.Keys
  {
    View(v.setup, d, true, g, plan.runtimes, StoreAfter(v.store, g, plan.made, plan.updates), plan.adapters, plan.rpcs,
         if ChangesPolicy(v) then d.policy else v.policy,
         if ReusesAlarms(v.hasConfig, v.config, d) then v.publisher else v.publisher + 1, members, plan.bindings)
  }

  lemma PlanFits(v: View, d: Config, g: nat, plan: Plan, marks: Marks)
    requires PlanOk(v, d, g, plan, marks)
    ensures plan.updates.Keys <= v.store.Keys && plan.made.Keys !! v.store.Keys
    ensures plan.runtimes.Keys == Endpoints(d).Keys
  {
    hide ByName, WellFormed, AdaptersOk, Bound, StagedOne, MapBelow;
  }

  lemma PublishedIs(v: View, d: Config, g: nat, plan: Plan, members: map<string, MemberId>, marks: Marks)
    requires Consistent(v) && PlanOk(v, d, g, plan, marks) && plan.updates.Keys <= v.store.Keys
    requires MembersFit(v, plan, members, marks)
    ensures Consistent(Published(v, d, g, plan, members)) && Applied(v, d, g, Published(v, d, g, plan, members))
  {
    hide Staged, AdaptersOk, WellFormed, ByName, StoreAfter, RuntimesApplied, AdaptersApplied, Consistent, Bound,
         AllBelow, MapBelow, MembersApplied;
    var w := Published(v, d, g, plan, members);
    AdaptersAre(v, d, marks.adapter, plan.adapters);
    CommitIsConsistent(v, d, g, marks.runtime, plan.runtimes, plan.made, plan.updates, w);
    RuntimesAre(v, d, g, marks.runtime, plan.runtimes, plan.made, plan.updates, w);
    MembersAre(v, w, marks.member);
  }

  /** Stopping the retired runtimes leaves the published ones alone. */
  lemma StillInUse(v: View, d: Config, g: nat, plan: Plan, marks: Marks, w: View, x: View)
    requires Consistent(v) && PlanOk(v, d, g, plan, marks) && Consistent(w) && w.runtimes == plan.runtimes
    requires Applied(v, d, g, w) && x == w.(store := x.store) && x.store.Keys == w.store.Keys
    requires forall id | id in w.store && id !in Retired(v.runtimes, w.runtimes) :: x.store[id] == w.store[id]
    ensures Consistent(x) && Applied(v, d, g, x)
  {
    hide Staged, AdaptersOk, WellFormed, ByName, Retired, RuntimesApplied, AdaptersApplied, Consistent, Bound,
         ReusesAlarms, AllBelow, MapBelow;
    forall name | name in w.runtimes
      ensures w.runtimes[name] in w.store && x.store[w.runtimes[name]] == w.store[w.runtimes[name]]
    {
      RetiredAreUnused(v, d, g, marks.runtime, plan.runtimes, plan.made, plan.updates, name);
      RuntimeKnown(w, name);
    }
    RetireIsConsistent(w, x);
    RetireKeepsRuntimes(v, d, g, w, x);
  }

  lemma RuntimeKnown(v: View, name: string)
    requires Consistent(v)
    ensures name in v.runtimes ==> v.runtimes[name] in v.store
  {
    hide WellFormed, ByName;
  }

  lemma RetiredAreKnown(v: View, g: nat, plan: Plan)
    requires Consistent(v)
    ensures Retired(v.runtimes, plan.runtimes) <= StoreAfter(v.store, g, plan.made, plan.updates).Keys
  {
    hide WellFormed, ByName;
  }

  lemma StoreBelow(v: View, g: nat, plan: Plan, bound: nat)
    requires AllBelow(v.store.Keys, bound) && AllBelow(plan.made.Keys, bound)
    ensures AllBelow(StoreAfter(v.store, g, plan.made, plan.updates).Keys, bound)
  {
  }

  // ---- the reported difference ----

  /** The settings that only a restart may change are as before. */
  predicate Reloadable(v: View, d: Config) {
    v.config.limits == d.limits
    && (v.hasConfig ==> v.config.nameSpace == d.nameSpace && v.config.server == d.server)
  }

  function KeptNames(c: Config, d: Config): set<string> {
    set name | name in Endpoints(d) && Keeps(c, d, name)
  }

  lemma ListedIs(list: seq<string>, names: set<string>, name: string)
    requires Lists(list, names)
    ensures name in list <==> name in names
  {
    assert name in list <==> name in Elements(list);
  }

  /** A reload rebuilds exactly the endpoints reported as added or replaced; every other one keeps its runtime. */
  lemma DiffRefinesReload(v: View, d: Config, g: nat, w: View, diff: Diff, name: string)
    requires Consistent(v) && Applied(v, d, g, w) && IsDiff(v.config, d, diff)
    ensures name in diff.added || name in diff.replaced <==> name in w.runtimes && w.runtimes[name] !in v.store
    ensures name in w.runtimes && name !in diff.added && name !in diff.replaced ==>
              name in v.runtimes && w.runtimes[name] == v.runtimes[name]
    ensures name in diff.removed <==> name in v.runtimes && name !in w.runtimes
    ensures name in diff.metadataChanged ==> name !in diff.replaced && name in w.runtimes && w.runtimes[name] in v.store
  {
    ListedIs(diff.added, Endpoints(d).Keys - Endpoints(v.config).Keys, name);
    ListedIs(diff.removed, Endpoints(v.config).Keys - Endpoints(d).Keys, name);
    ListedIs(diff.replaced, Replaced(v.config, d), name);
    ListedIs(diff.metadataChanged, DetailsChanged(v.config, d), name);
    hide ByName, SameReaderTopology, SameDetails, ChangedBackends, Lists, Bound, AdaptersApplied, WellFormed,
         MembersApplied;
  }

  /** The reported number of retained endpoints is the number of runtimes kept. */
  lemma RetainedCount(c: Config, d: Config, diff: Diff)
    requires WellFormed(d) && IsDiff(c, d, diff)
    ensures |KeptNames(c, d)| == |d.endpoints| - |diff.added| - |diff.replaced|
  {
    hide WellFormed, Replaced, KeptNames, ByName;
    NamesCount(d);
    NamesSplit(c, d);
    CountSplit(Endpoints(d).Keys, Endpoints(d).Keys - Endpoints(c).Keys, Replaced(c, d), KeptNames(c, d));
  }

  lemma NamesSplit(c: Config, d: Config)
    ensures Endpoints(d).Keys == Endpoints(d).Keys - Endpoints(c).Keys + Replaced(c, d) + KeptNames(c, d)
    ensures (Endpoints(d).Keys - Endpoints(c).Keys) !! Replaced(c, d)
    ensures (Endpoints(d).Keys - Endpoints(c).Keys) + Replaced(c, d) !! KeptNames(c, d)
  {
    hide ByName, SameReaderTopology, Touched;
  }

  lemma CountSplit(all: set<string>, a: set<string>, b: set<string>, c: set<string>)
    requires all == a + b + c && a !! b && a + b !! c
    ensures |all| == |a| + |b| + |c|
  {
    assert |a + b| == |a| + |b|;
  }

  lemma NamesCount(d: Config)
    requires WellFormed(d)
    ensures |Endpoints(d).Keys| == |d.endpoints|
  {
    hide FullName, Uses, ByName;
    ByNameCount(d.nameSpace, d.endpoints);
  }
}
