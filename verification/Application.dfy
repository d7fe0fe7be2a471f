/**
 The application object that loads and reloads configurations.  A publication is made of in-place steps in the order
 of the code: the registry refuses a stale snapshot under its lock, the policy is activated, updates take effect, new
 runtimes become active, the access members are swapped, dropped registrations are retired, the snapshot is stored,
 and only then are the application's own fields replaced.
 */
module Applications {
  import opened Basics
  import opened ConfigModel
  import opened ConfigDiffs
  import opened RegistryCore
  import opened Reloads
  import RegistryInvariant
  import RegistryTheorems
  import opened PvRegistries

  class Application {
    const setup: Setup
    const registry: PvRegistry
    var config: Config
    var hasConfig: bool
    var generation: nat
    var runtimes: map<string, RuntimeId>
    var store: map<RuntimeId, Runtime>
    var adapters: map<string, AdapterId>
    var rpcs: map<string, Rpc>
    var policy: nat
    var publisher: nat
    var members: map<string, MemberId>
    var nextRuntime: nat
    var nextAdapter: nat
    var nextMember: nat

    ghost function View(): View
      reads this, registry
    {
      Reloads.View(setup, config, hasConfig, generation, runtimes, store, adapters, rpcs, policy, publisher, members,
                   Shown(registry.Model()))
    }

    ghost predicate Valid()
      reads this, registry
    {
      && Consistent(View())
      && AllBelow(store.Keys, nextRuntime)
      && MapBelow(adapters, nextAdapter)
      && MapBelow(members, nextMember)
      && RegistryInvariant.Inv(registry.Model()) && registry.lock.None? && AllComplete(registry.regs)
    }

    /** The policy of a secured application is active before its first configuration is applied. */
    constructor (setup: Setup, policy: nat)
      ensures Valid() && !hasConfig && config == NoConfig && fresh(registry)
      ensures this.setup == setup && this.policy == policy && Shown(registry.Model()) == map[]
    {
      this.setup, this.policy := setup, policy;
      registry := new PvRegistry();
      config, hasConfig, generation, runtimes, store := NoConfig, false, 0, map[], map[];
      adapters, rpcs, publisher, members := map[], map[], 0, map[];
      nextRuntime, nextAdapter, nextMember := 0, 0, 0;
    }

    /** Adapters of unchanged back ends are taken over, the others are created. */
    method BuildAdapters(d: Config, o: Outcomes) returns (ok: bool, next: map<string, AdapterId>)
      requires Valid()
      modifies this`nextAdapter
      ensures Valid() && nextAdapter >= old(nextAdapter)
      ensures ok <==> forall b | b in d.backends :: !o.backend(b)
      ensures ok ==> AdaptersOk(View(), d, next, old(nextAdapter)) && MapBelow(next, nextAdapter)
    {
      hide Consistent, RegistryInvariant.Inv, AllComplete, Shown, AllBelow;
      next := map[];
      var rest := d.backends.Keys;
      while rest != {}
        invariant rest <= d.backends.Keys && next.Keys == d.backends.Keys - rest && nextAdapter >= old(nextAdapter)
        invariant forall b | b in next :: !o.backend(b) && next[b] < nextAdapter
        invariant forall b | b in next ::
                    if SameBackend(config, d, b) && b in adapters then next[b] == adapters[b] else next[b] >= old(nextAdapter)
      {
        var b :| b in rest;
        if o.backend(b) {
          return false, next;
        }
        rest := rest - {b};
        if SameBackend(config, d, b) && b in adapters {
          next := next[b := adapters[b]];
        } else {
          next := next[b := nextAdapter];
          nextAdapter := nextAdapter + 1;
        }
      }
      ok := true;
    }

    /** Compatible runtimes are taken over with an update prepared, the others are made anew. */
    method BuildRuntimes(d: Config, g: nat, next: map<string, AdapterId>, ghost first: nat, o: Outcomes)
      returns (ok: bool, staged: map<string, RuntimeId>, made: map<RuntimeId, Runtime>, updates: map<RuntimeId, Endpoint>)
      requires Valid() && WellFormed(d) && AdaptersOk(View(), d, next, first)
      requires MapBelow(adapters, first)
      modifies this`nextRuntime
      ensures Valid() && nextRuntime >= old(nextRuntime)
      ensures ok <==> forall i | 0 <= i < |d.endpoints| :: !o.runtime(FullName(d.nameSpace, d.endpoints[i]))
      ensures ok ==> Staged(View(), d, g, Endpoints(d).Keys, old(nextRuntime), staged, made, updates)
      ensures AllBelow(made.Keys, nextRuntime)
    {
      hide Consistent, WellFormed, AdaptersOk, Staged, FullName, ByName, Keeps, SameReaderTopology, SameBindings,
           RegistryInvariant.Inv, AllComplete, Shown, MapBelow;
      staged, made, updates := map[], map[], map[];
      ghost var v, lo := View(), nextRuntime;
      StagedNone(v, d, g, lo);
      for i := 0 to |d.endpoints|
        invariant View() == v && Valid() && nextRuntime >= lo && AllBelow(made.Keys, nextRuntime)
        invariant Staged(v, d, g, ByName(d.nameSpace, d.endpoints[..i]).Keys, lo, staged, made, updates)
        invariant forall j | 0 <= j < i :: !o.runtime(FullName(d.nameSpace, d.endpoints[j]))
      {
        var e := d.endpoints[i];
        var name := FullName(d.nameSpace, e);
        if o.runtime(name) {
          return false, staged, made, updates;
        }
        NewAt(d, i);
        EndpointAt(d, i);
        KeptIff(v, d, next, first, name);
        RuntimeKnown(v, name);
        ByNameNext(d, i);
        if name in runtimes && SameReaderTopology(store[runtimes[name]].config, e) && SameBindings(e, adapters, next) {
          StageKept(v, d, g, ByName(d.nameSpace, d.endpoints[..i]).Keys, lo, staged, made, updates, name);
          staged, updates := staged[name := runtimes[name]], updates[runtimes[name] := e];
        } else {
          StageNew(v, d, g, ByName(d.nameSpace, d.endpoints[..i]).Keys, lo, staged, made, updates, name, nextRuntime);
          staged, made := staged[name := nextRuntime], made[nextRuntime := Runtime(e, g, true, false)];
          nextRuntime := nextRuntime + 1;
        }
      }
      assert d.endpoints[..|d.endpoints|] == d.endpoints;
      ok := true;
    }

    method CommitUpdates(g: nat, updates: map<RuntimeId, Endpoint>)
      requires updates.Keys <= store.Keys
      modifies this`store
      ensures store.Keys == old(store.Keys)
      ensures forall id | id in store ::
                store[id] == if id in updates then Updated(old(store)[id], updates[id], g) else old(store)[id]
    {
      var rest := updates.Keys;
      while rest != {}
        invariant rest <= updates.Keys && store.Keys == old(store.Keys)
        invariant forall id | id in store ::
                    store[id] == if id in updates && id !in rest then Updated(old(store)[id], updates[id], g) else old(store)[id]
      {
        var id :| id in rest;
        store := store[id := Updated(store[id], updates[id], g)];
        rest := rest - {id};
      }
    }

    method ActivateMade(made: map<RuntimeId, Runtime>)
      requires made.Keys !! store.Keys
      modifies this`store
      ensures store.Keys == old(store.Keys) + made.Keys
      ensures forall id | id in store :: store[id] == if id in made then made[id].(committed := true) else old(store)[id]
    {
      var rest := made.Keys;
      while rest != {}
        invariant rest <= made.Keys && store.Keys == old(store.Keys) + (made.Keys - rest)
        invariant forall id | id in store :: store[id] == if id in made then made[id].(committed := true) else old(store)[id]
      {
        var id :| id in rest;
        store := store[id := made[id].(committed := true)];
        rest := rest - {id};
      }
    }

    /** The commit action after the policy: updates take effect, new runtimes become active. */
    method CommitRuntimes(g: nat, made: map<RuntimeId, Runtime>, updates: map<RuntimeId, Endpoint>)
      requires updates.Keys <= store.Keys && made.Keys !! store.Keys
      modifies this`store
      ensures store == StoreAfter(old(store), g, made, updates)
    {
      CommitUpdates(g, updates);
      ActivateMade(made);
    }

    /** Retired runtimes are stopped after the publication; a failing refresh stops only some of them. */
    method RetireRuntimes(retired: set<RuntimeId>, limit: Option<nat>)
      requires retired <= store.Keys
      modifies this`store
      ensures Stops(old(store), store, retired)
      ensures limit.None? ==> forall id | id in retired :: !store[id].alive
    {
      var rest, count := retired, 0;
      while rest != {} && (limit.None? || count < limit.value)
        invariant rest <= retired && store.Keys == old(store.Keys)
        invariant forall id | id in store ::
                    store[id] == if id in retired && id !in rest then old(store)[id].(alive := false) else old(store)[id]
      {
        var id :| id in rest;
        store := store[id := store[id].(alive := false)];
        rest, count := rest - {id}, count + 1;
      }
    }

    /** Everything up to the policy; what the application shows stays as it is. */
    method Stage(d: Config, g: nat, o: Outcomes) returns (ok: bool, plan: Plan)
      requires Valid() && WellFormed(d)
      modifies this`nextRuntime, this`nextAdapter
      ensures Valid()
      ensures ok <==> Stages(View(), d, o)
      ensures ok ==> PlanOk(View(), d, g, plan, Marks(old(nextRuntime), old(nextAdapter), nextMember)) && plan.rpcs == o.rpcs.value
      ensures ok ==> AllBelow(plan.made.Keys, nextRuntime) && MapBelow(plan.adapters, nextAdapter)
    {
      hide WellFormed, AdaptersOk, DistinctUpTo, Bound, FullName, ByName, Staged, AllBelow, MapBelow, Consistent, DistinctNames,
           RegistryInvariant.Inv, AllComplete;
      plan := Plan(map[], map[], map[], map[], map[], map[]);
      ghost var first := nextAdapter;
      var adapters;
      ok, adapters := BuildAdapters(d, o);
      if !ok {
        return;
      }
      if !ReusesAlarms(hasConfig, config, d) && o.publisher {
        return false, plan;
      }
      var staged, made, updates, bound;
      ok, staged, made, updates := BuildRuntimes(d, g, adapters, first, o);
      if !ok || o.rpcs.None? || o.catalog {
        return false, plan;
      }
      StagedKeys(View(), d, g, old(nextRuntime), staged, made, updates);
      ok, bound := BuildBindings(Targets(d, setup.admin, staged, o.rpcs.value));
      if ok {
        plan := Plan(adapters, staged, made, updates, o.rpcs.value, bound);
      }
    }

    /** Access members of unchanged bindings are taken over, the others are made anew. */
    method PrepareMembers(desired: map<string, Binding>) returns (next: map<string, MemberId>)
      requires Valid()
      modifies this`nextMember
      ensures Valid() && nextMember >= old(nextMember)
      ensures MembersOk(View(), desired, next, old(nextMember)) && MapBelow(next, nextMember)
    {
      hide Consistent, RegistryInvariant.Inv, AllComplete, Shown, AllBelow;
      next := map[];
      var existing := registry.Bindings();
      var rest := desired.Keys;
      while rest != {}
        invariant rest <= desired.Keys && next.Keys == desired.Keys - rest && nextMember >= old(nextMember)
        invariant forall name | name in next :: next[name] < nextMember
        invariant forall name | name in next ::
                    if name in existing && name in members && existing[name] == desired[name]
                    then next[name] == members[name] else next[name] >= old(nextMember)
      {
        var name :| name in rest;
        rest := rest - {name};
        if name in existing && name in members && existing[name] == desired[name] {
          next := next[name := members[name]];
        } else {
          next := next[name := nextMember];
          nextMember := nextMember + 1;
        }
      }
    }

    /** The commit action, under the registry's lock: the policy first, because only it can fail. */
    method Commit(d: Config, g: nat, plan: Plan, next: map<string, MemberId>, o: Outcomes) returns (ok: bool)
      requires plan.updates.Keys <= store.Keys && plan.made.Keys !! store.Keys
      modifies this`policy, this`store, this`members
      ensures ok <==> !(setup.secured && hasConfig && o.activation)
      ensures !ok ==> policy == old(policy) && store == old(store) && members == old(members)
      ensures ok ==> store == StoreAfter(old(store), g, plan.made, plan.updates)
      ensures ok ==> policy == if setup.secured && hasConfig then d.policy else old(policy)
      ensures ok ==> members == if setup.secured then next else old(members)
    {
      if setup.secured && hasConfig {
        if o.activation {
          return false;
        }
        policy := d.policy;
      }
      CommitRuntimes(g, plan.made, plan.updates);
      if setup.secured {
        members := next;
      }
      ok := true;
    }

    /** After the publication the fields of the generation are replaced. */
    method Swap(d: Config, g: nat, plan: Plan)
      modifies this`config, this`hasConfig, this`generation, this`runtimes, this`adapters, this`rpcs, this`publisher
      ensures runtimes == plan.runtimes && adapters == plan.adapters && rpcs == plan.rpcs
      ensures config == d && hasConfig && generation == g
      ensures publisher == if ReusesAlarms(old(hasConfig), old(config), d) then old(publisher) else old(publisher) + 1
    {
      if !ReusesAlarms(hasConfig, config, d) {
        publisher := publisher + 1;
      }
      runtimes, adapters, rpcs := plan.runtimes, plan.adapters, plan.rpcs;
      config, generation, hasConfig := d, g, true;
    }

    /** Another publisher replaces the names, and in a secured application the members with them. */
    method Rival(desired: map<string, Binding>)
      requires Valid()
      modifies registry, this`members, this`nextMember
      ensures Valid() && nextMember >= old(nextMember)
      ensures !ValidDesired(desired) ==> View() == old(View()) && registry.Model() == old(registry.Model())
      ensures ValidDesired(desired) ==> OnlyNames(old(View()), desired, View())
      ensures !setup.secured ==> members == old(members)
      ensures ValidDesired(desired) ==>
                && registry.current.version == |old(registry.prepared)| + 1 && |registry.prepared| > |old(registry.prepared)|
                && registry.prepared[..|old(registry.prepared)|] == old(registry.prepared)
                && |registry.stages| > |old(registry.stages)| && registry.stages[..|old(registry.stages)|] == old(registry.stages)
    {
      hide RegistryInvariant.Inv, AllComplete, ValidDesired, Consistent, Follows, AllBelow, MapBelow, Shown, MembersOk;
      ghost var v := View();
      var next := members;
      if setup.secured {
        next := PrepareMembers(desired);
        MemberNames(v, desired, next, old(nextMember));
      }
      var ok := registry.Replace(desired);
      if ok && setup.secured {
        members := next;
      }
      if ok {
        NamesAreFree(v, desired, View());
      }
    }

    /** What follows the publication; a failure here ends it, and the generation stays. */
    method Refresh(p: nat, retired: set<RuntimeId>, o: Outcomes)
      requires RegistryInvariant.Inv(registry.Model()) && p < |registry.prepared| && p < |registry.stages|
      requires registry.stages[p] == Closing(0, []) && retired <= store.Keys
      modifies registry`regs, registry`channels, registry`stages, this`store
      ensures RegistryInvariant.Inv(registry.Model()) && SameStanding(old(registry.regs), registry.regs)
      ensures Stops(old(store), store, retired)
      ensures o.refresh.None? ==> Refreshed(registry.Model(), p) && forall id | id in retired :: !store[id].alive
    {
      hide RegistryInvariant.Inv;
      if o.refresh == Some(0) {
        return;
      }
      registry.Finish(p);
      RetireRuntimes(retired, if o.refresh.Some? then Some(o.refresh.value - 1) else None);
    }

    /** The registry's preparation; new registrations do not show. */
    method PrepareNames(desired: map<string, Binding>) returns (p: Option<nat>)
      requires Valid()
      modifies registry
      ensures Valid() && View() == old(View()) && Untouched(old(registry.Model()), registry.Model())
      ensures p.Some? <==> ValidDesired(desired)
      ensures p.Some? ==> p.value == |old(registry.prepared)| && IsPublication(old(registry.Model()), registry.Model(), desired)
    {
      hide Consistent, AllBelow, MapBelow, RegistryInvariant.Inv, AllComplete, ValidDesired, IsPrepared, Binds;
      ghost var s := registry.Model();
      p := registry.Prepare(desired);
      if p.Some? {
        ShownSame(s, registry.Model());
      }
    }

    /** Staging, policy preparation and the registry's preparation: nothing that shows is touched. */
    method PrepareGeneration(d: Config, g: nat, o: Outcomes) returns (result: Option<Candidate>)
      requires Valid() && WellFormed(d)
      modifies this`nextRuntime, this`nextAdapter, this`nextMember, registry
      ensures Valid() && View() == old(View()) && Untouched(old(registry.Model()), registry.Model())
      ensures result.Some? <==> IsReady(View(), d, o)
      ensures result.Some? ==>
                && PlanOk(View(), d, g, result.value.plan, Marks(old(nextRuntime), old(nextAdapter), old(nextMember)))
                && MembersFit(View(), result.value.plan, result.value.members, Marks(old(nextRuntime), old(nextAdapter), old(nextMember)))
                && result.value.plan.rpcs == o.rpcs.value
                && AllBelow(result.value.plan.made.Keys, nextRuntime) && MapBelow(result.value.plan.adapters, nextAdapter)
                && MapBelow(result.value.members, nextMember)
      ensures result.Some? ==> result.value.p == |old(registry.prepared)|
                               && IsPublication(old(registry.Model()), registry.Model(), result.value.plan.bindings)
    {
      hide PlanOk, WellFormed, Consistent, AllBelow, MapBelow, Stages, ValidNames, ValidDesired, RegistryInvariant.Inv, AllComplete,
           MembersOk, IsPublication;
      ghost var v, marks := View(), Marks(nextRuntime, nextAdapter, nextMember);
      var ok, plan := Stage(d, g, o);
      if !ok || (setup.secured && hasConfig && o.policy) {
        return None;
      }
      var next := members;
      if setup.secured {
        next := PrepareMembers(plan.bindings);
      }
      NamesOf(v, d, g, plan, marks);
      var p := PrepareNames(plan.bindings);
      if p.None? {
        return None;
      }
      result := Some(Candidate(plan, next, p.value));
    }

    /**
     The publication: the registry's stale check under its lock, the commit action, then retirement and store, or the
     lock given back.
     */
    method Publish(d: Config, g: nat, x: Candidate, o: Outcomes) returns (ok: bool)
      requires RegistryInvariant.Inv(registry.Model()) && registry.lock.None?
      requires x.p < |registry.prepared| && x.p < |registry.stages| && registry.stages[x.p].Ready?
      requires x.plan.updates.Keys <= store.Keys && x.plan.made.Keys !! store.Keys
      modifies this`policy, this`store, this`members, registry
      ensures RegistryInvariant.Inv(registry.Model()) && registry.lock.None? && registry.prepared == old(registry.prepared)
      ensures registry.channels == old(registry.channels)
      ensures ok <==> registry.prepared[x.p].previous == old(registry.current) && !(setup.secured && hasConfig && o.activation)
      ensures !ok ==> policy == old(policy) && store == old(store) && members == old(members)
      ensures !ok ==> registry.current == old(registry.current) && registry.regs == old(registry.regs)
                      && registry.history == old(registry.history)
      ensures ok ==> store == StoreAfter(old(store), g, x.plan.made, x.plan.updates)
      ensures ok ==> policy == if setup.secured && hasConfig then d.policy else old(policy)
      ensures ok ==> members == if setup.secured then x.members else old(members)
      ensures ok ==> registry.current == registry.prepared[x.p].next && x.p < |registry.stages|
                     && registry.stages[x.p] == Closing(0, [])
                     && Retires(old(registry.regs), registry.regs, registry.prepared[x.p].retiring)
    {
      hide RegistryInvariant.Inv, StoreAfter, Shown;
      ok := registry.Acquire(x.p);
      if ok {
        ok := Commit(d, g, x.plan, x.members, o);
        registry.Settle(x.p, ok);
      }
    }

    /**
     The publication and what follows it.  It is refused without a trace if the snapshot is stale or the policy
     cannot be activated; otherwise everything has become new.
     */
    method PublishGeneration(d: Config, g: nat, x: Candidate, o: Outcomes) returns (accepted: bool)
      requires RegistryInvariant.Inv(registry.Model()) && registry.lock.None?
      requires x.p < |registry.prepared| && x.p < |registry.stages| && registry.stages[x.p].Ready?
      requires x.plan.updates.Keys <= store.Keys && x.plan.made.Keys !! store.Keys && (!setup.secured ==> x.members == members)
      requires Retired(runtimes, x.plan.runtimes) <= StoreAfter(store, g, x.plan.made, x.plan.updates).Keys
      modifies this`config, this`hasConfig, this`generation, this`runtimes, this`store, this`adapters, this`rpcs, this`policy,
               this`publisher, this`members, registry
      ensures RegistryInvariant.Inv(registry.Model()) && registry.lock.None? && registry.prepared == old(registry.prepared)
      ensures accepted <==> registry.prepared[x.p].previous == old(registry.current) && !(ChangesPolicy(old(View())) && o.activation)
      ensures !accepted ==> View() == old(View()) && Untouched(old(registry.Model()), registry.Model())
      ensures !accepted ==> registry.regs == old(registry.regs)
      ensures accepted ==> registry.current == registry.prepared[x.p].next
                           && Retires(old(registry.regs), registry.regs, registry.prepared[x.p].retiring)
      ensures accepted ==> View() == Published(old(View()), d, g, x.plan, x.members).(store := store, names := Shown(registry.Model()))
      ensures accepted ==> Stops(StoreAfter(old(store), g, x.plan.made, x.plan.updates), store, Retired(old(runtimes), runtimes))
      ensures accepted && o.refresh.None? ==>
                Refreshed(registry.Model(), x.p) && forall id | id in Retired(old(runtimes), runtimes) && id in store :: !store[id].alive
    {
      hide RegistryInvariant.Inv, Retired, StoreAfter, ReusesAlarms, Refreshed, Shown, Stops;
      ghost var s := registry.Model();
      accepted := Publish(d, g, x, o);
      if !accepted {
        SameShown(s, registry.Model());
        return;
      }
      var retired := Retired(runtimes, x.plan.runtimes);
      Swap(d, g, x.plan);
      Refresh(x.p, retired, o);
    }

    /** The publication of a candidate that was prepared in state `s` of the registry. */
    method Conclude(d: Config, g: nat, x: Candidate, o: Outcomes, ghost s: State, ghost marks: Marks) returns (accepted: bool)
      requires Valid() && x.p < |registry.prepared| && x.p < |registry.stages| && registry.stages[x.p].Ready?
      requires x.plan.updates.Keys <= store.Keys && x.plan.made.Keys !! store.Keys && (!setup.secured ==> x.members == members)
      requires Retired(runtimes, x.plan.runtimes) <= StoreAfter(store, g, x.plan.made, x.plan.updates).Keys
      requires AllBelow(StoreAfter(store, g, x.plan.made, x.plan.updates).Keys, nextRuntime)
      requires MapBelow(x.plan.adapters, nextAdapter) && MapBelow(x.members, nextMember)
      requires registry.prepared[x.p].previous == registry.current ==>
                 && PlanOk(View(), d, g, x.plan, marks) && MembersFit(View(), x.plan, x.members, marks)
                 && x.p == |s.prepared| && IsPublication(s, registry.Model(), x.plan.bindings)
      modifies this`config, this`hasConfig, this`generation, this`runtimes, this`store, this`adapters, this`rpcs, this`policy,
               this`publisher, this`members, registry
      ensures Valid()
      ensures accepted <==> old(registry.prepared[x.p].previous == registry.current) && !(ChangesPolicy(old(View())) && o.activation)
      ensures !accepted ==> View() == old(View()) && Untouched(old(registry.Model()), registry.Model())
      ensures accepted ==> Applied(old(View()), d, g, View()) && rpcs == x.plan.rpcs && Follows(s, registry.Model())
      ensures accepted ==> Retired(old(runtimes), runtimes) <= store.Keys
      ensures accepted && o.refresh.None? ==>
                Refreshed(registry.Model(), x.p) && forall id | id in Retired(old(runtimes), runtimes) :: !store[id].alive
    {
      hide PlanOk, Retired, StoreAfter, Applied, Consistent, AllBelow, MapBelow, ReusesAlarms, MembersFit, RegistryInvariant.Inv,
           AllComplete, Follows, IsPublication, Refreshed, Stops, Published, Untouched, Retires;
      ghost var v, t := View(), registry.Model();
      accepted := PublishGeneration(d, g, x, o);
      if accepted {
        PublicationShows(s, t, registry.Model(), x.plan.bindings);
        Assembled(v, d, g, x, marks, View());
      }
    }

    /** Applies a generation: all of it, or nothing. */
    method ApplyGeneration(d: Config, g: nat, o: Outcomes) returns (accepted: bool)
      requires Valid() && WellFormed(d)
      modifies this, registry
      ensures Valid()
      ensures accepted <==> Succeeds(old(View()), d, o)
      ensures !accepted && !Outrun(old(View()), d, o) ==> View() == old(View()) && Untouched(old(registry.Model()), registry.Model())
      ensures Outrun(old(View()), d, o) ==> OnlyNames(old(View()), o.rival.value, View())
      ensures accepted ==> Applied(old(View()), d, g, View()) && rpcs == o.rpcs.value
      ensures accepted ==> Follows(old(registry.Model()), registry.Model())
      ensures accepted ==> Retired(old(runtimes), runtimes) <= store.Keys
      ensures accepted && o.refresh.None? ==>
                && Refreshed(registry.Model(), |old(registry.prepared)|)
                && forall id | id in Retired(old(runtimes), runtimes) :: !store[id].alive
    {
      hide PlanOk, WellFormed, Retired, StoreAfter, Applied, Consistent, AllBelow, MapBelow, ReusesAlarms, IsReady, MembersFit,
           ValidDesired, RegistryInvariant.Inv, AllComplete, Follows, IsPublication, Refreshed, Untouched, Shown, OnlyNames;
      ghost var v, s, marks := View(), registry.Model(), Marks(nextRuntime, nextAdapter, nextMember);
      var prepared := PrepareGeneration(d, g, o);
      if prepared.None? {
        return false;
      }
      var x := prepared.value;
      PlanFits(v, d, g, x.plan, marks);
      RetiredAreKnown(v, g, x.plan);
      StoreBelow(v, g, x.plan, nextRuntime);
      OpenMembers(v, x.plan, x.members, marks);
      ghost var t, low := registry.Model(), nextMember;
      PublicationKnown(s, t, x.plan.bindings);
      if o.rival.Some? {
        Rival(o.rival.value);
        if ValidDesired(o.rival.value) {
          Outdated(registry.Model(), x.p);
        }
      }
      BelowMore(x.members, low, nextMember);
      accepted := Conclude(d, g, x, o, s, marks);
      UntouchedMore(s, t, registry.Model());
    }

    /** Reports the difference, refuses a change that needs a restart, then applies the next generation. */
    method ApplyConfig(d: Config, initial: bool, o: Outcomes) returns (accepted: bool, diff: Diff, retained: int)
      requires Valid() && WellFormed(d)
      modifies this, registry
      ensures Valid()
      ensures IsDiff(old(config), d, diff) && retained == |KeptNames(old(config), d)|
      ensures accepted <==> (initial || Reloadable(old(View()), d)) && Succeeds(old(View()), d, o)
      ensures !accepted ==> View() == old(View()) || (Outrun(old(View()), d, o) && OnlyNames(old(View()), o.rival.value, View()))
      ensures accepted ==> Applied(old(View()), d, old(generation) + 1, View())
    {
      hide Succeeds, WellFormed, Retired, Applied, Consistent, AllBelow, MapBelow, IsDiff, KeptNames, Outrun,
           RegistryInvariant.Inv, AllComplete, Follows, Refreshed;
      diff := DiffConfigs(config, d);
      RetainedCount(config, d, diff);
      retained := |d.endpoints| - |diff.added| - |diff.replaced|;
      if !initial && config.limits != d.limits {
        return false, diff, retained;
      }
      if !initial && hasConfig && (config.nameSpace != d.nameSpace || config.server != d.server) {
        return false, diff, retained;
      }
      accepted := ApplyGeneration(d, generation + 1, o);
    }
  }

  lemma StagedKeys(v: View, d: Config, g: nat, first: nat, runtimes: map<string, RuntimeId>,
                   made: map<RuntimeId, Runtime>, updates: map<RuntimeId, Endpoint>)
    requires Staged(v, d, g, Endpoints(d).Keys, first, runtimes, made, updates)
    ensures runtimes.Keys == Endpoints(d).Keys
  {
    hide ByName, StagedOne;
  }

  /** Binds the names of one more endpoint, refusing a name that is already bound. */
  method BindOne(x: Targets, n: nat, bindings: map<string, Binding>) returns (ok: bool, next: map<string, Binding>)
    requires n < |x.config.endpoints| && Bound(x, n, {}, bindings) && DistinctUpTo(x.config, x.admin.Keys, n)
    requires FullName(x.config.nameSpace, x.config.endpoints[n]) in x.runtimes
    ensures ok <==> DistinctUpTo(x.config, x.admin.Keys, n + 1)
    ensures ok ==> Bound(x, n + 1, {}, next)
  {
    hide FullName, Bound, DistinctUpTo;
    next := bindings;
    var e := x.config.endpoints[n];
    var names := Names(x.config.nameSpace, e);
    var b := EndpointBinding(x.config, x.runtimes[FullName(x.config.nameSpace, e)], e);
    for j := 0 to |names|
      invariant forall name | name in bindings :: name in next && next[name] == bindings[name]
      invariant forall k | 0 <= k < j :: names[k] in next && next[names[k]] == b && names[k] !in bindings
      invariant forall name | name in next :: name in bindings || exists k | 0 <= k < j :: names[k] == name
      invariant forall i, k | 0 <= i < k < j :: names[i] != names[k]
    {
      if names[j] in next {
        Taken(x, n, bindings, names[j], j);
        return false, next;
      }
      next := next[names[j] := b];
    }
    ok := true;
    BoundMore(x, n, bindings, next);
  }

  lemma Taken(x: Targets, n: nat, bindings: map<string, Binding>, name: string, j: nat)
    requires n < |x.config.endpoints| && Bound(x, n, {}, bindings)
    requires j < |Names(x.config.nameSpace, x.config.endpoints[n])| && Names(x.config.nameSpace, x.config.endpoints[n])[j] == name
    requires name in bindings || exists k | 0 <= k < j :: Names(x.config.nameSpace, x.config.endpoints[n])[k] == name
    ensures !DistinctUpTo(x.config, x.admin.Keys, n + 1)
  {
    hide FullName;
    if name in bindings && name !in x.admin {
      var i :| 0 <= i < n && name in Names(x.config.nameSpace, x.config.endpoints[i]);
      assert !Apart(Names(x.config.nameSpace, x.config.endpoints[i]), Names(x.config.nameSpace, x.config.endpoints[n]));
    } else if name !in bindings {
      assert !NoRepeats(Names(x.config.nameSpace, x.config.endpoints[n]));
    }
  }

  lemma BoundMore(x: Targets, n: nat, bindings: map<string, Binding>, next: map<string, Binding>)
    requires n < |x.config.endpoints| && Bound(x, n, {}, bindings) && DistinctUpTo(x.config, x.admin.Keys, n)
    requires forall name | name in bindings :: name in next && next[name] == bindings[name]
    requires forall name | name in Names(x.config.nameSpace, x.config.endpoints[n]) :: name !in bindings
    requires forall name | name in next :: name in bindings || name in Names(x.config.nameSpace, x.config.endpoints[n])
    requires NoRepeats(Names(x.config.nameSpace, x.config.endpoints[n])) && BoundOne(x, x.config.endpoints[n], next)
    ensures Bound(x, n + 1, {}, next) && DistinctUpTo(x.config, x.admin.Keys, n + 1)
  {
    hide FullName, Names, BoundOne, Apart, NoRepeats, AdminBinding, EndpointBinding;
    forall i | 0 <= i < n
      ensures BoundOne(x, x.config.endpoints[i], next)
      ensures Apart(Names(x.config.nameSpace, x.config.endpoints[i]), Names(x.config.nameSpace, x.config.endpoints[n]))
    {
      BoundStays(x, x.config.endpoints[i], bindings, next, Names(x.config.nameSpace, x.config.endpoints[n]));
    }
    assert forall name | name in bindings :: name in x.admin || NamedUpTo(x.config, n, name);
    NamedMore(x.config, n);
  }

  lemma BoundStays(x: Targets, e: Endpoint, bindings: map<string, Binding>, next: map<string, Binding>, others: seq<string>)
    requires BoundOne(x, e, bindings) && forall name | name in bindings :: name in next && next[name] == bindings[name]
    requires forall name | name in others :: name !in bindings
    ensures BoundOne(x, e, next) && Apart(Names(x.config.nameSpace, e), others)
  {
    hide FullName, Names;
  }

  lemma NamedMore(c: Config, n: nat)
    requires n < |c.endpoints|
    ensures forall name | NamedUpTo(c, n, name) :: NamedUpTo(c, n + 1, name)
    ensures forall name | name in Names(c.nameSpace, c.endpoints[n]) :: NamedUpTo(c, n + 1, name)
  {
    hide Names;
  }

  /** Binds the diagnostics, every endpoint under its name and its aliases, and the reflected methods. */
  method BuildBindings(x: Targets) returns (ok: bool, bindings: map<string, Binding>)
    requires WellFormed(x.config) && x.runtimes.Keys == Endpoints(x.config).Keys
    ensures ok <==> DistinctNames(x.config, x.admin.Keys, x.rpcs.Keys)
    ensures ok ==> AllBound(x, bindings)
  {
    hide FullName, WellFormed, ByName, Bound, DistinctUpTo, NamedUpTo;
    bindings := map name | name in x.admin :: AdminBinding(x.config, x.admin[name]);
    BoundNone(x, bindings);
    for i := 0 to |x.config.endpoints|
      invariant Bound(x, i, {}, bindings) && DistinctUpTo(x.config, x.admin.Keys, i)
    {
      EndpointAt(x.config, i);
      ok, bindings := BindOne(x, i, bindings);
      if !ok {
        NotDistinct(x.config, x.admin.Keys, i + 1);
        return;
      }
    }
    ok, bindings := BindRpcs(x, bindings);
  }

  method BindRpcs(x: Targets, bindings: map<string, Binding>) returns (ok: bool, next: map<string, Binding>)
    requires Bound(x, |x.config.endpoints|, {}, bindings)
    ensures ok <==> forall name | name in x.rpcs :: name !in x.admin && !NamedUpTo(x.config, |x.config.endpoints|, name)
    ensures ok ==> AllBound(x, next)
  {
    hide Bound, NamedUpTo;
    next := bindings;
    var rest: set<string>, done: set<string> := x.rpcs.Keys, {};
    while rest != {}
      invariant done <= x.rpcs.Keys && rest == x.rpcs.Keys - done && Bound(x, |x.config.endpoints|, done, next)
      invariant forall name | name in done :: name !in x.admin && !NamedUpTo(x.config, |x.config.endpoints|, name)
    {
      var name :| name in rest;
      RpcTaken(x, done, next, name);
      if name in next {
        return false, next;
      }
      next := next[name := RpcBinding(x.rpcs[name])];
      rest, done := rest - {name}, done + {name};
    }
    assert done == x.rpcs.Keys;
    ok := true;
  }

  /** A method's name is free, and then it can be bound, exactly when nothing else has it. */
  lemma RpcTaken(x: Targets, done: set<string>, bindings: map<string, Binding>, name: string)
    requires done <= x.rpcs.Keys && Bound(x, |x.config.endpoints|, done, bindings) && name in x.rpcs && name !in done
    ensures name in bindings <==> name in x.admin || NamedUpTo(x.config, |x.config.endpoints|, name)
    ensures name !in bindings ==> Bound(x, |x.config.endpoints|, done + {name}, bindings[name := RpcBinding(x.rpcs[name])])
  {
    hide FullName, Names;
    if NamedUpTo(x.config, |x.config.endpoints|, name) {
      var i :| 0 <= i < |x.config.endpoints| && name in Names(x.config.nameSpace, x.config.endpoints[i]);
      assert BoundOne(x, x.config.endpoints[i], bindings);
    }
    if name !in bindings {
      var next := bindings[name := RpcBinding(x.rpcs[name])];
      forall i | 0 <= i < |x.config.endpoints|
        ensures BoundOne(x, x.config.endpoints[i], next)
      {
        assert BoundOne(x, x.config.endpoints[i], bindings);
      }
    }
  }

  lemma BoundNone(x: Targets, bindings: map<string, Binding>)
    requires bindings == map name | name in x.admin :: AdminBinding(x.config, x.admin[name])
    ensures Bound(x, 0, {}, bindings) && DistinctUpTo(x.config, x.admin.Keys, 0)
  {
  }

  lemma NotDistinct(d: Config, admin: set<string>, n: nat)
    requires n <= |d.endpoints| && !DistinctUpTo(d, admin, n)
    ensures !DistinctUpTo(d, admin, |d.endpoints|)
  {
    hide Names, NoRepeats, Apart;
  }

  // ---- what the publication does to the registry ----

  /** Everything that was published stays as it was. */
  ghost predicate Untouched(before: State, after: State) {
    && after.current == before.current && after.channels == before.channels && after.history == before.history
    && |before.regs| <= |after.regs| && after.regs[..|before.regs|] == before.regs
  }

  lemma SameShown(s: State, t: State)
    requires s.current == t.current && s.regs == t.regs
    ensures Shown(s) == Shown(t)
  {
  }

  lemma UntouchedMore(s: State, t: State, u: State)
    ensures Untouched(s, t) && Untouched(t, u) ==> Untouched(s, u)
  {
    assert Untouched(s, t) && Untouched(t, u) ==> u.regs[..|t.regs|][..|s.regs|] == u.regs[..|s.regs|];
  }

  /** The second state comes from the first by preparing these bindings. */
  ghost predicate IsPublication(s: State, t: State, desired: map<string, Binding>) {
    && RegistryInvariant.Inv(s) && s.lock.None? && AllComplete(s.regs)
    && |t.prepared| == |s.prepared| + 1 && |s.regs| <= |t.regs|
    && var x, added := t.prepared[|s.prepared|], t.regs[|s.regs|..];
       && Possible(s, Step.Prepare(x, desired, added)) && t == After(s, Step.Prepare(x, desired, added))
       && Binds(t.regs, x.next, desired)
  }

  lemma PublicationKnown(s: State, t: State, desired: map<string, Binding>)
    requires IsPublication(s, t, desired)
    ensures |t.prepared| == |t.stages| == |s.prepared| + 1 && t.stages[|s.prepared|].Ready? && t.lock.None?
    ensures t.prepared[|s.prepared|].previous == t.current
  {
    hide RegistryInvariant.Inv, IsPrepared, Binds, AllComplete;
    StageCount(s);
  }

  ghost predicate Retires(before: seq<Registration>, after: seq<Registration>, retiring: seq<RegId>) {
    && |before| == |after|
    && forall r | 0 <= r < |after| ::
         && after[r].binding == before[r].binding
         && (after[r].retirer.Some? <==> r in retiring || before[r].retirer.Some?)
  }

  /** After the store readers see the desired bindings, and unchanged names kept their registrations. */
  lemma PublicationShows(s: State, t: State, u: State, desired: map<string, Binding>)
    requires IsPublication(s, t, desired) && AllComplete(t.regs)
    requires u.current == t.prepared[|s.prepared|].next && Retires(t.regs, u.regs, t.prepared[|s.prepared|].retiring)
    ensures Shown(u) == desired && Follows(s, u) && AllComplete(u.regs)
  {
    hide RegistryInvariant.Inv, IsPrepared, Follows;
    var x, added := t.prepared[|s.prepared|], t.regs[|s.regs|..];
    BindsStay(t.regs, u.regs, x.next, desired);
    hide Binds;
    BindsShown(u, desired);
    assert t.regs == s.regs + added;
    PublicationFollows(s, x, desired, added, u);
  }

  /** Everything this publication dropped is closed. */
  ghost predicate Refreshed(s: State, p: nat) {
    && RegistryTheorems.Finished(s, p)
    && forall c | 0 <= c < |s.channels| && s.channels[c].reg in s.prepared[p].retiring && RegistryTheorems.Created(s, c) ::
         s.channels[c].closed
  }

  ghost predicate Stops(before: map<RuntimeId, Runtime>, after: map<RuntimeId, Runtime>, retired: set<RuntimeId>) {
    && after.Keys == before.Keys
    && forall id | id in after :: after[id] == before[id] || (id in retired && after[id] == before[id].(alive := false))
  }

  /** The published generation, some retired runtimes stopped. */
  lemma Assembled(v: View, d: Config, g: nat, x: Candidate, marks: Marks, w: View)
    requires Consistent(v) && PlanOk(v, d, g, x.plan, marks) && MembersFit(v, x.plan, x.members, marks)
    requires x.plan.updates.Keys <= v.store.Keys && w.names == x.plan.bindings
    requires w == Published(v, d, g, x.plan, x.members).(store := w.store, names := w.names)
    requires Stops(StoreAfter(v.store, g, x.plan.made, x.plan.updates), w.store, Retired(v.runtimes, w.runtimes))
    ensures Consistent(w) && Applied(v, d, g, w)
    ensures w.store.Keys == StoreAfter(v.store, g, x.plan.made, x.plan.updates).Keys
    ensures w.runtimes == x.plan.runtimes && w.adapters == x.plan.adapters && w.rpcs == x.plan.rpcs && w.members == x.members
  {
    hide PlanOk, Consistent, Applied, StoreAfter, Retired, MembersFit, ReusesAlarms;
    PublishedIs(v, d, g, x.plan, x.members, marks);
    StillInUse(v, d, g, x.plan, marks, Published(v, d, g, x.plan, x.members), w);
  }

  lemma NamesOf(v: View, d: Config, g: nat, plan: Plan, marks: Marks)
    requires PlanOk(v, d, g, plan, marks)
    ensures ValidDesired(plan.bindings) <==> ValidNames(d, v.setup.admin.Keys, plan.rpcs.Keys)
  {
    hide WellFormed, AdaptersOk, Staged, AllBelow, MapBelow, ValidDesired, ValidNames, AllBound;
    ValidIff(Targets(d, v.setup.admin, plan.runtimes, plan.rpcs), plan.bindings);
  }

  lemma MemberNames(v: View, desired: map<string, Binding>, next: map<string, MemberId>, first: nat)
    requires MembersOk(v, desired, next, first)
    ensures next.Keys == desired.Keys
  {
  }

  lemma OpenMembers(v: View, plan: Plan, members: map<string, MemberId>, marks: Marks)
    requires MembersFit(v, plan, members, marks)
    ensures !v.setup.secured ==> members == v.members
  {
  }

  lemma NamesAreFree(v: View, names: map<string, Binding>, w: View)
    requires Consistent(v) && OnlyNames(v, names, w) && (v.setup.secured ==> w.members.Keys == names.Keys)
    ensures Consistent(w)
  {
    hide WellFormed, ByName;
  }

  lemma BelowMore(ids: map<string, nat>, low: nat, high: nat)
    requires MapBelow(ids, low) && low <= high
    ensures MapBelow(ids, high)
  {
  }

  lemma StagedNone(v: View, d: Config, g: nat, first: nat)
    ensures Staged(v, d, g, ByName(d.nameSpace, d.endpoints[..0]).Keys, first, map[], map[], map[])
  {
  }

  lemma ByNameNext(d: Config, i: nat)
    requires i < |d.endpoints|
    ensures ByName(d.nameSpace, d.endpoints[..i + 1]).Keys
            == ByName(d.nameSpace, d.endpoints[..i]).Keys + {FullName(d.nameSpace, d.endpoints[i])}
  {
    assert d.endpoints[..i + 1][..i] == d.endpoints[..i];
  }
}
