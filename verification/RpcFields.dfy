/** Merging call arguments over prepared defaults. */
module RpcFields {
  import opened Basics
  import opened RpcSchema
  import opened RpcPaths
  import opened RpcTheorems

  const MaxArguments := 1024

  type Fields = map<string, string>

  // ---- canonical fields ----

  /** Every name resolves, and no two of them to the same path. */
  ghost predicate Resolvable(s: Schema, d: TypeId, names: set<string>)
    requires WellFormed(s) && d < |s|
  {
    && (forall k | k in names :: Canon(s, d, k).Path?)
    && (forall j, k | j in names && k in names && Canon(s, d, j) == Canon(s, d, k) :: j == k)
  }

  /** The same values under the resolved names. */
  ghost predicate Renamed(s: Schema, d: TypeId, input: Fields, names: set<string>, result: Fields)
    requires WellFormed(s) && d < |s| && names <= input.Keys
  {
    && (forall k | k in names :: Canon(s, d, k).Path? && Canon(s, d, k).path in result
                                 && result[Canon(s, d, k).path] == input[k])
    && (forall p | p in result :: exists k | k in names :: Canon(s, d, k) == Path(p))
  }

  /** What the names resolve to. */
  ghost function PathsOf(s: Schema, d: TypeId, names: set<string>): set<string>
    requires WellFormed(s) && d < |s|
  {
    set k | k in names && Canon(s, d, k).Path? :: Canon(s, d, k).path
  }

  lemma RenamedKeys(s: Schema, d: TypeId, input: Fields, names: set<string>, result: Fields)
    requires WellFormed(s) && d < |s| && names <= input.Keys && Renamed(s, d, input, names, result)
    ensures result.Keys == PathsOf(s, d, names)
  {
    hide WellFormed, Canon;
    forall p | p in result
      ensures p in PathsOf(s, d, names)
    {
      var k :| k in names && Canon(s, d, k) == Path(p);
      assert Canon(s, d, k).path == p;
    }
  }

  /** Names that clash with no other resolve to as many paths. */
  lemma {:induction false} PathsCount(s: Schema, d: TypeId, names: set<string>)
    requires WellFormed(s) && d < |s| && Resolvable(s, d, names)
    ensures |PathsOf(s, d, names)| == |names|
    decreases |names|
  {
    hide WellFormed, Canon;
    if names == {} {
      assert PathsOf(s, d, names) == {};
    } else {
      var k :| k in names;
      PathsCount(s, d, names - {k});
      assert PathsOf(s, d, names) == PathsOf(s, d, names - {k}) + {Canon(s, d, k).path};
      assert Canon(s, d, k).path !in PathsOf(s, d, names - {k});
    }
  }

  /** Resolves every argument name; anything unknown, unsupported or given twice is refused. */
  method CanonicalFields(s: Schema, d: TypeId, input: Fields) returns (r: Option<Fields>)
    requires WellFormed(s) && d < |s|
    ensures r.Some? <==> |input| <= 1024 && Resolvable(s, d, input.Keys)
    ensures r.Some? ==> Renamed(s, d, input, input.Keys, r.value)
  {
    hide WellFormed, Canon, Resolvable, Renamed;
    if |input| > MaxArguments {
      return None;
    }
    var result: Fields := map[];
    RenameNone(s, d, input);
    var rest := input.Keys;
    ghost var done: set<string> := {};
    while rest != {}
      invariant done !! rest && done + rest == input.Keys
      invariant Resolvable(s, d, done) && Renamed(s, d, input, done, result)
    {
      var k :| k in rest;
      var c := CanonicalPath(s, d, k);
      if !c.Path? {
        Unresolved(s, d, input.Keys, k);
        return None;
      }
      if c.path in result {
        Clash(s, d, input, done, result, k);
        return None;
      }
      RenameOne(s, d, input, done, result, k);
      result := result[c.path := input[k]];
      rest, done := rest - {k}, done + {k};
    }
    assert done == input.Keys;
    r := Some(result);
  }

  lemma RenameNone(s: Schema, d: TypeId, input: Fields)
    requires WellFormed(s) && d < |s|
    ensures Resolvable(s, d, {}) && Renamed(s, d, input, {}, map[])
  {
    hide WellFormed, Canon;
  }

  lemma Unresolved(s: Schema, d: TypeId, names: set<string>, k: string)
    requires WellFormed(s) && d < |s| && k in names && !Canon(s, d, k).Path?
    ensures !Resolvable(s, d, names)
  {
    hide WellFormed, Canon;
  }

  lemma Clash(s: Schema, d: TypeId, input: Fields, done: set<string>, result: Fields, k: string)
    requires WellFormed(s) && d < |s| && done <= input.Keys && Renamed(s, d, input, done, result)
    requires k in input && k !in done && Canon(s, d, k).Path? && Canon(s, d, k).path in result
    ensures !Resolvable(s, d, input.Keys)
  {
    hide WellFormed, Canon;
    var j :| j in done && Canon(s, d, j) == Path(Canon(s, d, k).path);
  }

  lemma RenameOne(s: Schema, d: TypeId, input: Fields, done: set<string>, result: Fields, k: string)
    requires WellFormed(s) && d < |s| && done <= input.Keys && Resolvable(s, d, done) && Renamed(s, d, input, done, result)
    requires k in input && k !in done && Canon(s, d, k).Path? && Canon(s, d, k).path !in result
    ensures Resolvable(s, d, done + {k})
    ensures Renamed(s, d, input, done + {k}, result[Canon(s, d, k).path := input[k]])
  {
    hide WellFormed, Canon;
    var next := result[Canon(s, d, k).path := input[k]];
    forall p | p in next
      ensures exists j | j in done + {k} :: Canon(s, d, j) == Path(p)
    {
      if p in result {
        var j :| j in done && Canon(s, d, j) == Path(p);
        assert j in done + {k};
      } else {
        assert k in done + {k};
      }
    }
  }

  // ---- prepared defaults ----

  /** Every name is a resolved path. */
  ghost predicate FromPaths(s: Schema, d: TypeId, fields: Fields)
    requires WellFormed(s) && d < |s|
  {
    forall p | p in fields :: exists k :: Canon(s, d, k) == Path(p)
  }

  predicate ShortNames(fields: Fields) {
    forall p | p in fields :: |p| <= 4096
  }

  ghost predicate NoneBad(s: Schema, d: TypeId, fields: Fields)
    requires WellFormed(s) && d < |s|
  {
    forall k | k in fields :: !Canon(s, d, k).Bad?
  }

  /** Shared defaults that concern this request; the others are skipped. */
  method SharedDefaults(s: Schema, d: TypeId, shared: Fields) returns (r: Option<Fields>)
    requires WellFormed(s) && d < |s|
    ensures r.Some? <==> NoneBad(s, d, shared) && Resolvable(s, d, Applying(s, d, shared))
    ensures r.Some? ==> Renamed(s, d, shared, Applying(s, d, shared), r.value)
  {
    hide WellFormed, Canon;
    var result: Fields := map[];
    var rest := shared.Keys;
    ghost var done: set<string> := {};
    while rest != {}
      invariant done !! rest && done + rest == shared.Keys
      invariant forall k | k in done :: !Canon(s, d, k).Bad?
      invariant Resolvable(s, d, Applying(s, d, shared) * done) && Renamed(s, d, shared, Applying(s, d, shared) * done, result)
    {
      var k :| k in rest;
      var c := CanonicalPath(s, d, k);
      ghost var names := Applying(s, d, shared) * done;
      if c.Bad? {
        return None;
      }
      if c.Path? {
        if c.path in result {
          ClashWithin(s, d, shared, names, result, k);
          return None;
        }
        RenameOne(s, d, shared, names, result, k);
        result := result[c.path := shared[k]];
        assert Applying(s, d, shared) * (done + {k}) == names + {k};
      } else {
        assert Applying(s, d, shared) * (done + {k}) == names;
      }
      rest, done := rest - {k}, done + {k};
    }
    assert Applying(s, d, shared) * done == Applying(s, d, shared);
    r := Some(result);
  }

  ghost function Applying(s: Schema, d: TypeId, shared: Fields): set<string>
    requires WellFormed(s) && d < |s|
  {
    set k | k in shared && Canon(s, d, k).Path?
  }

  lemma ClashWithin(s: Schema, d: TypeId, shared: Fields, names: set<string>, result: Fields, k: string)
    requires WellFormed(s) && d < |s| && names <= Applying(s, d, shared) && Renamed(s, d, shared, names, result)
    requires k in Applying(s, d, shared) && k !in names && Canon(s, d, k).path in result
    ensures !Resolvable(s, d, Applying(s, d, shared))
  {
    hide WellFormed, Canon;
    var j :| j in names && Canon(s, d, j) == Path(Canon(s, d, k).path);
  }

  /** Lays one set of fields over another. */
  method Overlay(below: Fields, above: Fields) returns (r: Fields)
    ensures r.Keys == below.Keys + above.Keys
    ensures forall p | p in r :: r[p] == if p in above then above[p] else below[p]
  {
    r := below;
    var rest := above.Keys;
    while rest != {}
      invariant rest <= above.Keys && r.Keys == below.Keys + (above.Keys - rest)
      invariant forall p | p in r :: r[p] == if p in above && p !in rest then above[p] else below[p]
    {
      var p :| p in rest;
      r := r[p := above[p]];
      rest := rest - {p};
    }
  }

  /** A method's own defaults win over the shared ones, however either is spelled; shared ones stay; nothing else is there. */
  ghost predicate Layered(s: Schema, d: TypeId, shared: Fields, specific: Fields, values: Fields)
    requires WellFormed(s) && d < |s|
  {
    && values.Keys == PathsOf(s, d, shared.Keys) + PathsOf(s, d, specific.Keys)
    && (forall k | k in specific && Canon(s, d, k).Path? :: values[Canon(s, d, k).path] == specific[k])
    && (forall k | k in shared && Canon(s, d, k).Path? && Canon(s, d, k).path !in PathsOf(s, d, specific.Keys) ::
          values[Canon(s, d, k).path] == shared[k])
  }

  /** The defaults of one method: its own over the shared ones. */
  method PrepareDefaults(s: Schema, d: TypeId, shared: Fields, specific: Fields) returns (r: Option<Fields>)
    requires WellFormed(s) && d < |s|
    ensures r.Some? <==>
              && |shared| <= 1024 && NoneBad(s, d, shared)
              && Resolvable(s, d, Applying(s, d, shared)) && Resolvable(s, d, specific.Keys)
              && |PathsOf(s, d, shared.Keys) + PathsOf(s, d, specific.Keys)| <= 1024
    ensures r.Some? ==> FromPaths(s, d, r.value) && Layered(s, d, shared, specific, r.value)
  {
    hide WellFormed, Canon, Resolvable, Renamed, FromPaths, Layered, PathsOf, NoneBad, Applying;
    if |shared| > MaxArguments {
      return None;
    }
    var general := SharedDefaults(s, d, shared);
    if general.None? {
      return None;
    }
    OwnCount(s, d, shared, specific);
    var own := CanonicalFields(s, d, specific);
    if own.None? {
      return None;
    }
    var values := Overlay(general.value, own.value);
    Layers(s, d, shared, specific, general.value, own.value, values);
    if |values| > MaxArguments {
      return None;
    }
    r := Some(values);
  }

  /** More own defaults than fit are too many whatever they resolve to. */
  lemma OwnCount(s: Schema, d: TypeId, shared: Fields, specific: Fields)
    requires WellFormed(s) && d < |s|
    ensures Resolvable(s, d, specific.Keys) && |PathsOf(s, d, shared.Keys) + PathsOf(s, d, specific.Keys)| <= 1024
            ==> |specific| <= 1024
  {
    hide WellFormed, Canon, Resolvable, PathsOf;
    if Resolvable(s, d, specific.Keys) {
      PathsCount(s, d, specific.Keys);
      Smaller(PathsOf(s, d, specific.Keys), PathsOf(s, d, shared.Keys) + PathsOf(s, d, specific.Keys));
    }
  }

  lemma Smaller(a: set<string>, b: set<string>)
    requires a <= b
    ensures |a| <= |b|
  {
    assert b == a + (b - a);
  }

  lemma Layers(s: Schema, d: TypeId, shared: Fields, specific: Fields, general: Fields, own: Fields, values: Fields)
    requires WellFormed(s) && d < |s|
    requires Renamed(s, d, shared, Applying(s, d, shared), general) && Renamed(s, d, specific, specific.Keys, own)
    requires values.Keys == general.Keys + own.Keys
    requires forall p | p in values :: values[p] == if p in own then own[p] else general[p]
    ensures Layered(s, d, shared, specific, values)
    ensures values.Keys == PathsOf(s, d, shared.Keys) + PathsOf(s, d, specific.Keys)
    ensures FromPaths(s, d, values)
  {
    hide WellFormed, Canon, FromPaths;
    RenamedKeys(s, d, shared, Applying(s, d, shared), general);
    RenamedKeys(s, d, specific, specific.Keys, own);
    assert PathsOf(s, d, Applying(s, d, shared)) == PathsOf(s, d, shared.Keys);
    RenamedFromPaths(s, d, shared, Applying(s, d, shared), general);
    RenamedFromPaths(s, d, specific, specific.Keys, own);
    UnionFromPaths(s, d, general, own, values);
  }

  lemma UnionFromPaths(s: Schema, d: TypeId, general: Fields, own: Fields, values: Fields)
    requires WellFormed(s) && d < |s| && FromPaths(s, d, general) && FromPaths(s, d, own) && values.Keys == general.Keys + own.Keys
    ensures FromPaths(s, d, values)
  {
    hide WellFormed, Canon;
  }

  lemma RenamedFromPaths(s: Schema, d: TypeId, input: Fields, names: set<string>, result: Fields)
    requires WellFormed(s) && d < |s| && names <= input.Keys && Renamed(s, d, input, names, result)
    ensures FromPaths(s, d, result)
  {
    hide WellFormed, Canon;
  }

  // ---- the call ----

  /** Resolving prepared defaults again is the identity exactly when every path is within the length limit. */
  lemma DefaultsAreStable(s: Schema, d: TypeId, defaults: Fields)
    requires WellFormed(s) && d < |s| && FromPaths(s, d, defaults)
    ensures Resolvable(s, d, defaults.Keys) <==> ShortNames(defaults)
    ensures forall result: Fields :: Resolvable(s, d, defaults.Keys) && Renamed(s, d, defaults, defaults.Keys, result)
              ==> result == defaults
  {
    hide WellFormed, Canon;
    forall p | p in defaults
      ensures Canon(s, d, p).Path? ==> Canon(s, d, p) == Path(p)
      ensures Canon(s, d, p) == Path(p) <==> |p| <= MaxPath
    {
      var k :| Canon(s, d, k) == Path(p);
      CanonicalIsStable(s, d, k);
      TooLong(s, d, p);
    }
    forall result: Fields | Resolvable(s, d, defaults.Keys) && Renamed(s, d, defaults, defaults.Keys, result)
      ensures result == defaults
    {
      assert forall p | p in defaults :: p in result && result[p] == defaults[p];
      assert result.Keys == defaults.Keys;
    }
  }

  lemma TooLong(s: Schema, d: TypeId, p: string)
    requires WellFormed(s) && d < |s|
    ensures |p| > MaxPath ==> Canon(s, d, p) == Bad
  {
    hide WellFormed, Size, Paths, Walk;
  }

  /** Call arguments win over defaults, however either is spelled; the other defaults stay; nothing else is there. */
  ghost predicate Overrides(s: Schema, d: TypeId, fields: Fields, defaults: Fields, merged: Fields)
    requires WellFormed(s) && d < |s|
  {
    && (forall k | k in fields :: Canon(s, d, k).Path? && Canon(s, d, k).path in merged
                                  && merged[Canon(s, d, k).path] == fields[k])
    && (forall p | p in defaults :: p in merged)
    && (forall p | p in merged :: (p in defaults && merged[p] == defaults[p]) || exists k | k in fields :: Canon(s, d, k) == Path(p))
  }

  lemma OverlayOverrides(s: Schema, d: TypeId, fields: Fields, own: Fields, defaults: Fields, merged: Fields)
    requires WellFormed(s) && d < |s| && Renamed(s, d, fields, fields.Keys, own)
    requires merged.Keys == defaults.Keys + own.Keys
    requires forall p | p in merged :: merged[p] == if p in own then own[p] else defaults[p]
    ensures Overrides(s, d, fields, defaults, merged)
  {
    hide WellFormed, Canon;
  }

  /** The request's arguments: those of the call over the defaults. */
  method MergeArguments(s: Schema, d: TypeId, fields: Fields, defaults: Fields) returns (r: Option<Fields>)
    requires WellFormed(s) && d < |s| && FromPaths(s, d, defaults)
    ensures r.Some? <==>
              ShortNames(defaults) && Resolvable(s, d, fields.Keys) && |defaults.Keys + PathsOf(s, d, fields.Keys)| <= 1024
    ensures r.Some? ==> Overrides(s, d, fields, defaults, r.value)
  {
    hide WellFormed, Canon, Resolvable, FromPaths, ShortNames, Renamed, Overrides, PathsOf;
    DefaultsAreStable(s, d, defaults);
    FieldCount(s, d, fields, defaults);
    var base := CanonicalFields(s, d, defaults);
    if base.None? {
      return None;
    }
    assert base.value == defaults;
    var own := CanonicalFields(s, d, fields);
    if own.None? {
      return None;
    }
    RenamedKeys(s, d, fields, fields.Keys, own.value);
    var merged := Overlay(base.value, own.value);
    OverlayOverrides(s, d, fields, own.value, defaults, merged);
    if |merged| > MaxArguments {
      return None;
    }
    r := Some(merged);
  }

  lemma FieldCount(s: Schema, d: TypeId, fields: Fields, defaults: Fields)
    requires WellFormed(s) && d < |s|
    ensures Resolvable(s, d, fields.Keys) && |defaults.Keys + PathsOf(s, d, fields.Keys)| <= 1024
            ==> |fields| <= 1024 && |defaults| <= 1024
  {
    hide WellFormed, Canon, Resolvable, PathsOf;
    if Resolvable(s, d, fields.Keys) {
      PathsCount(s, d, fields.Keys);
      Smaller(PathsOf(s, d, fields.Keys), defaults.Keys + PathsOf(s, d, fields.Keys));
      Smaller(defaults.Keys, defaults.Keys + PathsOf(s, d, fields.Keys));
    }
  }
}
