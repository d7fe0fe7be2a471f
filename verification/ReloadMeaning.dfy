/** What keeping, changing and applying mean, field by field. */
module ReloadMeaning {
  import opened Basics
  import opened ConfigModel
  import opened ConfigDiffs
  import opened RegistryCore
  import opened Reloads

  /** The back end is in neither configuration, or the same in both. */
  predicate Unchanged(c: Config, d: Config, backend: string) {
    if backend in c.backends then backend in d.backends && c.backends[backend] == d.backends[backend] else backend !in d.backends
  }

  /** The new endpoint reads, writes and confirms through back ends that did not change. */
  predicate RoutesUnchanged(c: Config, d: Config, e: Endpoint) {
    && Unchanged(c, d, e.read.backend)
    && (e.write.Some? ==> Unchanged(c, d, e.write.value.backend))
    && (e.confirm.Some? ==> Unchanged(c, d, e.confirm.value.backend))
  }

  /** The endpoint with the other's settings that take effect without a rebuild. */
  function Reconfigured(a: Endpoint, b: Endpoint): Endpoint {
    a.(metadata := b.metadata, limits := b.limits, transform := b.transform, initial := b.initial,
       maxFrameGap := b.maxFrameGap, healthRequired := b.healthRequired, staleAfterMs := b.staleAfterMs)
  }

  function Reassigned(a: Endpoint, b: Endpoint): Endpoint {
    a.(aliases := b.aliases, access := b.access)
  }

  lemma UsesUnchanged(c: Config, d: Config, e: Endpoint)
    ensures Uses(e) * ChangedBackends(c, d) == {} <==> RoutesUnchanged(c, d, e)
  {
    assert forall b :: b in ChangedBackends(c, d) <==> !Unchanged(c, d, b);
    if Uses(e) * ChangedBackends(c, d) == {} {
      assert forall b | b in Uses(e) :: b !in ChangedBackends(c, d);
      assert e.read.backend in Uses(e);
      assert e.write.Some? ==> e.write.value.backend in Uses(e);
      assert e.confirm.Some? ==> e.confirm.value.backend in Uses(e);
    }
  }

  /**
   A runtime is kept exactly if its endpoint exists before and after, differs at most in settings that need no rebuild,
   aliases and access, and every back end it now uses is unchanged.
   */
  lemma KeepsIff(c: Config, d: Config, name: string)
    ensures Keeps(c, d, name) <==>
              && name in Endpoints(c) && name in Endpoints(d)
              && Endpoints(d)[name] == Reassigned(Reconfigured(Endpoints(c)[name], Endpoints(d)[name]), Endpoints(d)[name])
              && RoutesUnchanged(c, d, Endpoints(d)[name])
  {
    hide ByName, ChangedBackends, Uses, RoutesUnchanged;
    if name in Endpoints(d) {
      UsesUnchanged(c, d, Endpoints(d)[name]);
    }
  }

  /** The report is complete: an endpoint that is in no list has not changed, but for the order of its aliases. */
  lemma UnlistedIsUnchanged(c: Config, d: Config, diff: Diff, name: string)
    requires IsDiff(c, d, diff) && name in Endpoints(d)
    requires name !in diff.added && name !in diff.replaced && name !in diff.metadataChanged
    requires name !in diff.aliasesChanged && name !in diff.accessChanged
    ensures name in Endpoints(c) && RoutesUnchanged(c, d, Endpoints(d)[name])
    ensures Endpoints(d)[name] == Endpoints(c)[name].(aliases := Endpoints(d)[name].aliases)
    ensures Elements(Endpoints(d)[name].aliases) == Elements(Endpoints(c)[name].aliases)
  {
    ListedIs(diff.added, Endpoints(d).Keys - Endpoints(c).Keys, name);
    ListedIs(diff.replaced, Replaced(c, d), name);
    ListedIs(diff.metadataChanged, DetailsChanged(c, d), name);
    ListedIs(diff.aliasesChanged, AliasesChanged(c, d), name);
    ListedIs(diff.accessChanged, AccessChanged(c, d), name);
    hide ByName, Lists, ChangedBackends, RoutesUnchanged, Elements, Uses;
    UsesUnchanged(c, d, Endpoints(d)[name]);
  }

  /** What each list says of an endpoint configured before and after. */
  lemma ListedMeans(c: Config, d: Config, diff: Diff, name: string)
    requires IsDiff(c, d, diff) && name in Endpoints(c) && name in Endpoints(d)
    ensures var a, b := Endpoints(c)[name], Endpoints(d)[name];
            && (name in diff.replaced <==> !Keeps(c, d, name))
            && (name in diff.metadataChanged <==> Keeps(c, d, name) && Reconfigured(a, b) != a)
            && (name in diff.accessChanged <==> a.access != b.access)
            && (name in diff.aliasesChanged <==> exists x :: (x in a.aliases) != (x in b.aliases))
            && name !in diff.added && name !in diff.removed
  {
    var a, b := Endpoints(c)[name], Endpoints(d)[name];
    ListedIs(diff.added, Endpoints(d).Keys - Endpoints(c).Keys, name);
    ListedIs(diff.removed, Endpoints(c).Keys - Endpoints(d).Keys, name);
    ListedIs(diff.replaced, Replaced(c, d), name);
    ListedIs(diff.metadataChanged, DetailsChanged(c, d), name);
    ListedIs(diff.aliasesChanged, AliasesChanged(c, d), name);
    ListedIs(diff.accessChanged, AccessChanged(c, d), name);
    hide ByName, Lists, ChangedBackends, Uses;
    assert Elements(a.aliases) == Elements(b.aliases) <==> forall x :: x in a.aliases <==> x in b.aliases by {
      assert forall x :: x in Elements(a.aliases) <==> x in a.aliases;
      assert forall x :: x in Elements(b.aliases) <==> x in b.aliases;
    }
  }

  // ---- applying ----

  /** What an accepted reload leaves behind. */
  lemma AppliedMeans(v: View, d: Config, g: nat, w: View)
    requires Consistent(v) && Applied(v, d, g, w)
    ensures w.config == d && w.hasConfig && w.generation == g
    ensures v.setup.secured && v.hasConfig ==> w.policy == d.policy
    ensures !(v.setup.secured && v.hasConfig) ==> w.policy == v.policy
    ensures w.publisher == v.publisher <==>
              && v.hasConfig && v.config.stream == d.stream
              && d.stream.backend in d.backends && Unchanged(v.config, d, d.stream.backend)
    ensures w.adapters.Keys == d.backends.Keys
    ensures forall b | b in w.adapters :: (b in v.adapters && w.adapters[b] == v.adapters[b]) <==> Unchanged(v.config, d, b)
  {
    hide WellFormed, ByName, Bound, RuntimesApplied, MembersApplied;
  }

  /** Every endpoint of the new configuration has a live runtime with its settings, kept exactly if it may be. */
  lemma EndpointIsServed(v: View, d: Config, g: nat, w: View, name: string)
    requires Consistent(v) && Applied(v, d, g, w)
    ensures name in w.runtimes <==> name in Endpoints(d)
    ensures name in w.runtimes ==>
              && w.runtimes[name] in w.store && w.store[w.runtimes[name]] == Runtime(Endpoints(d)[name], g, true, true)
              && (w.runtimes[name] in v.store <==> name in v.runtimes && w.runtimes[name] == v.runtimes[name])
              && (w.runtimes[name] in v.store <==>
                    name in Endpoints(v.config)
                    && Endpoints(d)[name] == Reassigned(Reconfigured(Endpoints(v.config)[name], Endpoints(d)[name]), Endpoints(d)[name])
                    && RoutesUnchanged(v.config, d, Endpoints(d)[name]))
  {
    KeepsIff(v.config, d, name);
    hide WellFormed, ByName, Bound, MembersApplied, Keeps, RoutesUnchanged, AdaptersApplied;
  }

  /** Retired are exactly the runtimes that were in use and are not any more. */
  lemma RetiredIff(v: View, d: Config, g: nat, w: View, id: RuntimeId)
    requires Consistent(v) && Applied(v, d, g, w)
    ensures id in Retired(v.runtimes, w.runtimes) <==>
              && (exists name | name in v.runtimes :: v.runtimes[name] == id)
              && (forall name | name in w.runtimes :: w.runtimes[name] != id)
  {
    hide WellFormed, ByName, Bound, MembersApplied, Keeps, AdaptersApplied;
    if id in Retired(v.runtimes, w.runtimes) {
      var name :| name in v.runtimes && v.runtimes[name] == id && (name !in w.runtimes || w.runtimes[name] != id);
      forall other | other in w.runtimes
        ensures w.runtimes[other] != id
      {
        if w.runtimes[other] in v.store {
          assert other in v.runtimes && w.runtimes[other] == v.runtimes[other];
        }
      }
    }
  }

  // ---- acceptance ----

  /** Nothing fails: no construction, no reflection, no listing, no policy and no other publisher. */
  ghost predicate Undisturbed(v: View, d: Config, o: Outcomes) {
    && (forall b | b in d.backends :: !o.backend(b))
    && (o.publisher ==> v.hasConfig && v.config.stream == d.stream && d.stream.backend in d.backends
                        && Unchanged(v.config, d, d.stream.backend))
    && (forall i | 0 <= i < |d.endpoints| :: !o.runtime(FullName(d.nameSpace, d.endpoints[i])))
    && o.rpcs.Some? && !o.catalog
    && (v.setup.secured && v.hasConfig ==> !o.policy && !o.activation)
    && (o.rival.Some? ==> exists name | name in o.rival.value ::
          name == "" || '\0' in name || !o.rival.value[name].complete)
  }

  /** All names the generation would publish: each is usable, and no two of them are the same. */
  ghost predicate NamesUsable(v: View, d: Config, rpcs: set<string>) {
    && (forall name | name in v.setup.admin || name in rpcs :: name != "" && '\0' !in name)
    && (forall name | name in v.setup.admin :: name !in rpcs)
    && (forall i | 0 <= i < |d.endpoints| :: forall k | 0 <= k < |Names(d.nameSpace, d.endpoints[i])| ::
          var name := Names(d.nameSpace, d.endpoints[i])[k];
          name != "" && '\0' !in name && name !in v.setup.admin && name !in rpcs)
    && (forall i | 0 <= i < |d.endpoints| :: NoRepeats(Names(d.nameSpace, d.endpoints[i])))
    && (forall i, j | 0 <= i < j < |d.endpoints| :: Apart(Names(d.nameSpace, d.endpoints[i]), Names(d.nameSpace, d.endpoints[j])))
  }

  lemma NamesUsableIff(v: View, d: Config, rpcs: set<string>)
    ensures NamesUsable(v, d, rpcs) <==> DistinctNames(d, v.setup.admin.Keys, rpcs) && ValidNames(d, v.setup.admin.Keys, rpcs)
  {
    hide Names;
    if DistinctNames(d, v.setup.admin.Keys, rpcs) && ValidNames(d, v.setup.admin.Keys, rpcs) {
      forall i, k | 0 <= i < |d.endpoints| && 0 <= k < |Names(d.nameSpace, d.endpoints[i])|
        ensures var name := Names(d.nameSpace, d.endpoints[i])[k];
                name != "" && '\0' !in name && name !in v.setup.admin && name !in rpcs
      {
        assert Names(d.nameSpace, d.endpoints[i])[k] in Names(d.nameSpace, d.endpoints[i]);
        assert NamedUpTo(d, |d.endpoints|, Names(d.nameSpace, d.endpoints[i])[k]);
      }
    }
  }

  /** A generation goes through exactly if nothing disturbs it and its names are usable. */
  lemma SucceedsIff(v: View, d: Config, o: Outcomes)
    ensures Succeeds(v, d, o) <==> Undisturbed(v, d, o) && NamesUsable(v, d, o.rpcs.value.Keys)
  {
    hide Names, DistinctNames, ValidNames, NamesUsable, FullName;
    if o.rpcs.Some? {
      NamesUsableIff(v, d, o.rpcs.value.Keys);
    }
  }
}
