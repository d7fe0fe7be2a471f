/** The reported difference between two configurations, list by list. */
module ConfigDiffs {
  import opened Basics
  import opened ConfigModel

  datatype Diff = Diff(
    added: seq<string>, removed: seq<string>, replaced: seq<string>, metadataChanged: seq<string>,
    aliasesChanged: seq<string>, accessChanged: seq<string>, backendsChanged: seq<string>)

  /** The list holds exactly these names, each once. */
  predicate Lists(list: seq<string>, names: set<string>) {
    Elements(list) == names && |list| == |names|
  }

  // ---- what each list should hold ----

  function Common(c: Config, d: Config): set<string> {
    Endpoints(c).Keys * Endpoints(d).Keys
  }

  predicate SameBackend(c: Config, d: Config, backend: string) {
    backend in c.backends && backend in d.backends && c.backends[backend] == d.backends[backend]
  }

  function ChangedBackends(c: Config, d: Config): set<string> {
    set b | b in c.backends.Keys + d.backends.Keys && !SameBackend(c, d, b)
  }

  /** The endpoint as configured now uses a back end that changed. */
  predicate Touched(c: Config, d: Config, name: string)
    requires name in Endpoints(d)
  {
    Uses(Endpoints(d)[name]) * ChangedBackends(c, d) != {}
  }

  predicate SameTopology(c: Config, d: Config, name: string)
    requires name in Common(c, d)
  {
    SameReaderTopology(Endpoints(c)[name], Endpoints(d)[name])
  }

  function Replaced(c: Config, d: Config): set<string> {
    set name | name in Common(c, d) && (!SameTopology(c, d, name) || Touched(c, d, name))
  }

  function DetailsChanged(c: Config, d: Config): set<string> {
    set name | name in Common(c, d) && SameTopology(c, d, name) && !Touched(c, d, name)
               && !SameDetails(Endpoints(c)[name], Endpoints(d)[name])
  }

  function AliasesChanged(c: Config, d: Config): set<string> {
    set name | name in Common(c, d) && Elements(Endpoints(c)[name].aliases) != Elements(Endpoints(d)[name].aliases)
  }

  function AccessChanged(c: Config, d: Config): set<string> {
    set name | name in Common(c, d) && Endpoints(c)[name].access != Endpoints(d)[name].access
  }

  predicate IsDiff(c: Config, d: Config, diff: Diff) {
    && Lists(diff.added, Endpoints(d).Keys - Endpoints(c).Keys)
    && Lists(diff.removed, Endpoints(c).Keys - Endpoints(d).Keys)
    && Lists(diff.replaced, Replaced(c, d))
    && Lists(diff.metadataChanged, DetailsChanged(c, d))
    && Lists(diff.aliasesChanged, AliasesChanged(c, d))
    && Lists(diff.accessChanged, AccessChanged(c, d))
    && Lists(diff.backendsChanged, ChangedBackends(c, d))
  }

  // ---- lists ----

  lemma ListsAppend(list: seq<string>, names: set<string>, x: string)
    requires Lists(list, names) && x !in names
    ensures Lists(list + [x], names + {x})
  {
    assert Elements(list + [x]) == Elements(list) + {x};
  }

  function Without(list: seq<string>, x: string): seq<string> {
    if list == [] then []
    else Without(list[..|list| - 1], x) + if list[|list| - 1] == x then [] else [list[|list| - 1]]
  }

  lemma {:induction false} ListsCount(list: seq<string>)
    ensures |Elements(list)| <= |list|
  {
    if list != [] {
      var n := |list| - 1;
      ListsCount(list[..n]);
      assert Elements(list) == Elements(list[..n]) + {list[n]};
    }
  }

  lemma {:induction false} ListsWithout(list: seq<string>, names: set<string>, x: string)
    requires Lists(list, names)
    ensures Lists(Without(list, x), names - {x})
  {
    if list != [] {
      var n := |list| - 1;
      var last := list[n];
      assert list == list[..n] + [last];
      assert Elements(list) == Elements(list[..n]) + {last};
      ListsCount(list[..n]);
      assert last !in list[..n];
      assert Elements(list[..n]) == names - {last};
      ListsWithout(list[..n], names - {last}, x);
      if last == x {
        assert names - {last} - {x} == names - {x};
      } else {
        ListsAppend(Without(list[..n], x), names - {last} - {x}, last);
        assert names - {last} - {x} + {last} == names - {x};
      }
    }
  }

  // ---- the comparison ----

  function TopologyChanged(c: Config, d: Config): set<string> {
    set name | name in Common(c, d) && !SameTopology(c, d, name)
  }

  function OnlyDetailsChanged(c: Config, d: Config): set<string> {
    set name | name in Common(c, d) && SameTopology(c, d, name) && !SameDetails(Endpoints(c)[name], Endpoints(d)[name])
  }

  function TouchedNames(c: Config, d: Config): set<string> {
    set name | name in Common(c, d) && Touched(c, d, name)
  }

  method Index(nameSpace: string, endpoints: seq<Endpoint>) returns (m: map<string, Endpoint>)
    ensures m == ByName(nameSpace, endpoints)
  {
    m := map[];
    for i := 0 to |endpoints|
      invariant m == ByName(nameSpace, endpoints[..i])
    {
      assert endpoints[..i + 1][..i] == endpoints[..i];
      if FullName(nameSpace, endpoints[i]) !in m {
        m := m[FullName(nameSpace, endpoints[i]) := endpoints[i]];
      }
    }
    assert endpoints[..|endpoints|] == endpoints;
  }

  /** Adds a name to a list whose set gains it just when `there` holds. */
  method Note(list: seq<string>, name: string, there: bool, ghost names: set<string>, ghost done: set<string>)
    returns (longer: seq<string>)
    requires Lists(list, names * done) && name !in done && (there <==> name in names)
    ensures Lists(longer, names * (done + {name}))
  {
    if there {
      ListsAppend(list, names * done, name);
      assert names * (done + {name}) == names * done + {name};
      longer := list + [name];
    } else {
      assert names * (done + {name}) == names * done;
      longer := list;
    }
  }

  lemma ListsNone(names: set<string>)
    ensures Lists([], names * {})
  {
    assert names * {} == {};
  }

  lemma ListsAll(list: seq<string>, names: set<string>, done: set<string>)
    requires Lists(list, names * done) && names <= done
    ensures Lists(list, names)
  {
    assert names * done == names;
  }

  /** Where a name configured before belongs. */
  lemma Membership(c: Config, d: Config, name: string)
    requires name in Endpoints(c)
    ensures name in TopologyChanged(c, d) <==>
              name in Endpoints(d) && !SameReaderTopology(Endpoints(c)[name], Endpoints(d)[name])
    ensures name in OnlyDetailsChanged(c, d) <==>
              name in Endpoints(d) && SameReaderTopology(Endpoints(c)[name], Endpoints(d)[name])
              && !SameDetails(Endpoints(c)[name], Endpoints(d)[name])
    ensures name in AliasesChanged(c, d) <==>
              name in Endpoints(d) && Elements(Endpoints(c)[name].aliases) != Elements(Endpoints(d)[name].aliases)
    ensures name in AccessChanged(c, d) <==> name in Endpoints(d) && Endpoints(c)[name].access != Endpoints(d)[name].access
  {
    hide SameReaderTopology, SameDetails, ByName, Elements;
  }

  lemma WithinPrevious(c: Config, d: Config)
    ensures TopologyChanged(c, d) <= Endpoints(c).Keys && OnlyDetailsChanged(c, d) <= Endpoints(c).Keys
    ensures AliasesChanged(c, d) <= Endpoints(c).Keys && AccessChanged(c, d) <= Endpoints(c).Keys
  {
    hide SameReaderTopology, SameDetails, ByName, Elements;
  }

  /** What has been noted so far. */
  ghost predicate Noted(c: Config, d: Config, diff: Diff, done: set<string>) {
    && Lists(diff.removed, (Endpoints(c).Keys - Endpoints(d).Keys) * done)
    && Lists(diff.replaced, TopologyChanged(c, d) * done)
    && Lists(diff.metadataChanged, OnlyDetailsChanged(c, d) * done)
    && Lists(diff.aliasesChanged, AliasesChanged(c, d) * done)
    && Lists(diff.accessChanged, AccessChanged(c, d) * done)
  }

  /** Compares one endpoint with its successor. */
  method CompareEndpoint(c: Config, d: Config, before: Endpoint, after: Option<Endpoint>, name: string, diff: Diff,
                         ghost done: set<string>) returns (next: Diff)
    requires name in Endpoints(c) && before == Endpoints(c)[name] && name !in done && Noted(c, d, diff, done)
    requires after == if name in Endpoints(d) then Some(Endpoints(d)[name]) else None
    ensures Noted(c, d, next, done + {name})
    ensures next.added == diff.added && next.backendsChanged == diff.backendsChanged
  {
    Membership(c, d, name);
    hide Lists, SameReaderTopology, SameDetails, ByName, Elements, TopologyChanged, OnlyDetailsChanged,
         AliasesChanged, AccessChanged;
    next := diff;
    var removed := Note(diff.removed, name, after.None?, Endpoints(c).Keys - Endpoints(d).Keys, done);
    var same := after.Some? && SameReaderTopology(before, after.value);
    var replaced := Note(diff.replaced, name, after.Some? && !same, TopologyChanged(c, d), done);
    var metadata := Note(diff.metadataChanged, name, same && !SameDetails(before, after.value), OnlyDetailsChanged(c, d), done);
    var aliases := Note(diff.aliasesChanged, name,
                        after.Some? && Elements(before.aliases) != Elements(after.value.aliases), AliasesChanged(c, d), done);
    var access := Note(diff.accessChanged, name, after.Some? && before.access != after.value.access, AccessChanged(c, d), done);
    next := diff.(removed := removed, replaced := replaced, metadataChanged := metadata,
                  aliasesChanged := aliases, accessChanged := access);
  }

  /** The first pass goes through the endpoints configured before. */
  method ComparePrevious(c: Config, d: Config) returns (diff: Diff)
    ensures Noted(c, d, diff, Endpoints(c).Keys)
  {
    hide Noted, SameReaderTopology, SameDetails, ByName;
    var before := Index(c.nameSpace, c.endpoints);
    var after := Index(d.nameSpace, d.endpoints);
    diff := Diff([], [], [], [], [], [], []);
    NotedNone(c, d);
    var rest := before.Keys;
    ghost var done: set<string> := {};
    while rest != {}
      invariant rest <= before.Keys && done == before.Keys - rest && Noted(c, d, diff, done)
    {
      var name :| name in rest;
      diff := CompareEndpoint(c, d, before[name], if name in after then Some(after[name]) else None, name, diff, done);
      rest, done := rest - {name}, done + {name};
    }
    assert done == before.Keys;
  }

  lemma NotedNone(c: Config, d: Config)
    ensures Noted(c, d, Diff([], [], [], [], [], [], []), {})
  {
    hide Lists, TopologyChanged, OnlyDetailsChanged, AliasesChanged, AccessChanged, ByName;
    ListsNone(Endpoints(c).Keys - Endpoints(d).Keys);
    ListsNone(TopologyChanged(c, d));
    ListsNone(OnlyDetailsChanged(c, d));
    ListsNone(AliasesChanged(c, d));
    ListsNone(AccessChanged(c, d));
  }

  lemma NotedAll(c: Config, d: Config, diff: Diff)
    requires Noted(c, d, diff, Endpoints(c).Keys)
    ensures Lists(diff.removed, Endpoints(c).Keys - Endpoints(d).Keys)
    ensures Lists(diff.replaced, TopologyChanged(c, d)) && Lists(diff.metadataChanged, OnlyDetailsChanged(c, d))
    ensures Lists(diff.aliasesChanged, AliasesChanged(c, d)) && Lists(diff.accessChanged, AccessChanged(c, d))
  {
    hide Lists, TopologyChanged, OnlyDetailsChanged, AliasesChanged, AccessChanged, ByName;
    WithinPrevious(c, d);
    ListsAll(diff.removed, Endpoints(c).Keys - Endpoints(d).Keys, Endpoints(c).Keys);
    ListsAll(diff.replaced, TopologyChanged(c, d), Endpoints(c).Keys);
    ListsAll(diff.metadataChanged, OnlyDetailsChanged(c, d), Endpoints(c).Keys);
    ListsAll(diff.aliasesChanged, AliasesChanged(c, d), Endpoints(c).Keys);
    ListsAll(diff.accessChanged, AccessChanged(c, d), Endpoints(c).Keys);
  }

  lemma ChangedWithin(c: Config, d: Config)
    ensures ChangedBackends(c, d) <= c.backends.Keys + d.backends.Keys
  {
    hide SameBackend;
  }

  lemma ChangedIs(c: Config, d: Config, name: string)
    requires name in c.backends.Keys + d.backends.Keys
    ensures name in ChangedBackends(c, d) <==> !SameBackend(c, d, name)
  {
    hide SameBackend;
  }

  method CompareBackends(c: Config, d: Config) returns (changed: seq<string>)
    ensures Lists(changed, ChangedBackends(c, d))
  {
    hide Lists, ChangedBackends, SameBackend;
    changed := [];
    var rest := c.backends.Keys + d.backends.Keys;
    ghost var all := rest;
    ghost var done: set<string> := {};
    ghost var names := ChangedBackends(c, d);
    ListsNone(names);
    ChangedWithin(c, d);
    while rest != {}
      invariant done !! rest && names <= done + rest && rest <= all && Lists(changed, names * done)
    {
      var name :| name in rest;
      ChangedIs(c, d, name);
      changed := Note(changed, name, !SameBackend(c, d, name), names, done);
      rest, done := rest - {name}, done + {name};
    }
    ListsAll(changed, names, done);
  }

  method NewNames(c: Config, d: Config) returns (added: seq<string>)
    ensures Lists(added, Endpoints(d).Keys - Endpoints(c).Keys)
  {
    hide Lists, ByName;
    var before := Index(c.nameSpace, c.endpoints);
    var after := Index(d.nameSpace, d.endpoints);
    added := [];
    var rest := after.Keys;
    ghost var done: set<string> := {};
    ghost var names := after.Keys - before.Keys;
    ListsNone(names);
    while rest != {}
      invariant done !! rest && names <= done + rest && rest <= after.Keys && Lists(added, names * done)
    {
      var name :| name in rest;
      added := Note(added, name, name !in before, names, done);
      rest, done := rest - {name}, done + {name};
    }
    ListsAll(added, names, done);
  }

  /** One endpoint that uses a changed back end moves from the metadata list to the replaced list. */
  method Move(name: string, replaced: seq<string>, metadata: seq<string>, ghost r: set<string>, ghost m: set<string>)
    returns (moved: seq<string>, kept: seq<string>)
    requires Lists(replaced, r) && Lists(metadata, m)
    ensures Lists(moved, r + {name}) && Lists(kept, m - {name})
  {
    moved := replaced;
    if name !in moved {
      ListsAppend(moved, r, name);
      moved := moved + [name];
    } else {
      assert r + {name} == r;
    }
    ListsWithout(metadata, m, name);
    kept := Without(metadata, name);
  }

  /** The last pass goes through the endpoints configured now. */
  method MoveTouched(c: Config, d: Config, changed: seq<string>, replaced: seq<string>, metadata: seq<string>)
    returns (moved: seq<string>, kept: seq<string>)
    requires Lists(changed, ChangedBackends(c, d))
    requires Lists(replaced, TopologyChanged(c, d)) && Lists(metadata, OnlyDetailsChanged(c, d))
    ensures Lists(moved, Replaced(c, d)) && Lists(kept, DetailsChanged(c, d))
  {
    hide Lists, ByName, TopologyChanged, OnlyDetailsChanged, ChangedBackends, Replaced, DetailsChanged,
         TouchedNames, Touched, UsesListed;
    var before := Index(c.nameSpace, c.endpoints);
    var after := Index(d.nameSpace, d.endpoints);
    moved, kept := replaced, metadata;
    var rest := after.Keys;
    ghost var done: set<string> := {};
    ghost var topology, details, touched := TopologyChanged(c, d), OnlyDetailsChanged(c, d), TouchedNames(c, d);
    assert topology + touched * done == topology && details - touched * done == details;
    while rest != {}
      invariant rest <= after.Keys && done == after.Keys - rest
      invariant Lists(moved, topology + touched * done) && Lists(kept, details - touched * done)
    {
      var name :| name in rest;
      UsesTouched(c, d, changed, name);
      if name in before && UsesListed(after[name], changed) {
        moved, kept := Move(name, moved, kept, topology + touched * done, details - touched * done);
      }
      OneMore(topology, details, touched, done, name);
      rest, done := rest - {name}, done + {name};
    }
    AllMoved(c, d, done);
  }

  lemma OneMore(topology: set<string>, details: set<string>, touched: set<string>, done: set<string>, name: string)
    ensures var next := done + {name};
            if name in touched then
              topology + touched * next == topology + touched * done + {name}
              && details - touched * next == details - touched * done - {name}
            else topology + touched * next == topology + touched * done && details - touched * next == details - touched * done
  {
    assert touched * (done + {name}) == if name in touched then touched * done + {name} else touched * done;
  }

  lemma AllMoved(c: Config, d: Config, done: set<string>)
    requires done == Endpoints(d).Keys
    ensures TopologyChanged(c, d) + TouchedNames(c, d) * done == Replaced(c, d)
    ensures OnlyDetailsChanged(c, d) - TouchedNames(c, d) * done == DetailsChanged(c, d)
  {
    hide ByName, SameReaderTopology, SameDetails, ChangedBackends;
  }

  predicate UsesListed(e: Endpoint, changed: seq<string>) {
    e.read.backend in changed || (e.write.Some? && e.write.value.backend in changed)
    || (e.confirm.Some? && e.confirm.value.backend in changed)
  }

  lemma UsesTouched(c: Config, d: Config, changed: seq<string>, name: string)
    requires Lists(changed, ChangedBackends(c, d)) && name in Endpoints(d)
    ensures UsesListed(Endpoints(d)[name], changed) <==> Touched(c, d, name)
    ensures name in TouchedNames(c, d) <==> name in Endpoints(c) && Touched(c, d, name)
  {
    var e := Endpoints(d)[name];
    var both := Uses(e) * ChangedBackends(c, d);
    assert forall b :: b in changed <==> b in ChangedBackends(c, d);
    if UsesListed(e, changed) {
      assert e.read.backend in both || (e.write.Some? && e.write.value.backend in both)
             || (e.confirm.Some? && e.confirm.value.backend in both);
    }
  }

  /** Compares two configurations. */
  method DiffConfigs(c: Config, d: Config) returns (diff: Diff)
    ensures IsDiff(c, d, diff)
  {
    hide Lists, TopologyChanged, OnlyDetailsChanged, AliasesChanged, AccessChanged, ChangedBackends, Replaced,
         DetailsChanged, Noted, ByName;
    diff := ComparePrevious(c, d);
    NotedAll(c, d, diff);
    var added := NewNames(c, d);
    var changed := CompareBackends(c, d);
    var replaced, metadata := MoveTouched(c, d, changed, diff.replaced, diff.metadataChanged);
    diff := diff.(added := added, backendsChanged := changed, replaced := replaced, metadataChanged := metadata);
  }
}
