/** What canonical paths promise. */
module RpcTheorems {
  import opened Basics
  import opened RpcSchema
  import opened RpcLeaves
  import opened RpcPaths

  /** A name that is neither dotted nor a field of the request itself. */
  predicate Bare(s: Schema, d: TypeId, name: string)
    requires d < |s|
  {
    0 < |name| <= 4096 && '.' !in name && Lookup(s[d], name).None?
  }

  ghost predicate OnlyLeaf(s: Schema, d: TypeId, name: string, parts: seq<string>)
    requires WellFormed(s) && d < |s|
  {
    LeafNamed(s, d, name, parts) && forall other :: LeafNamed(s, d, name, other) ==> other == parts
  }

  lemma OneMeansOnly(s: Schema, d: TypeId, name: string, parts: seq<string>)
    requires WellFormed(s) && d < |s| && Size(s, d, {}).Some?
    ensures OnlyLeaf(s, d, name, parts) <==> Paths(s, d, name, {}) == [parts]
  {
    hide WellFormed, Size, Paths, Leads;
    var paths := Paths(s, d, name, {});
    PathsDistinct(s, d, name, {});
    forall other
      ensures other in paths <==> LeafNamed(s, d, name, other)
    {
      PathsAre(s, d, name, {}, other);
    }
    assert |paths| > 1 ==> paths[0] != paths[1];
    if OnlyLeaf(s, d, name, parts) {
      assert parts in paths;
      assert forall i | 0 <= i < |paths| :: paths[i] == parts by {
        assert forall i | 0 <= i < |paths| :: paths[i] in paths;
      }
    }
  }

  /** A bare name resolves to a nested path exactly when that is the only leaf of this name in a tree that can be searched. */
  lemma UniqueLeafIff(s: Schema, d: TypeId, name: string, parts: seq<string>)
    requires WellFormed(s) && d < |s| && Bare(s, d, name) && parts != []
    ensures Searchable(s, d) && OnlyLeaf(s, d, name, parts) ==> Canon(s, d, name) == Path(Join(parts))
    ensures Canon(s, d, name).Path? ==>
              Searchable(s, d) && exists p :: p != [] && OnlyLeaf(s, d, name, p) && Canon(s, d, name).path == Join(p)
    ensures Canon(s, d, name).Absent? <==> Searchable(s, d) && forall p :: !LeafNamed(s, d, name, p)
  {
    hide WellFormed, Size, Paths, OnlyLeaf, LeafNamed;
    if Searchable(s, d) {
      var paths := Paths(s, d, name, {});
      OneMeansOnly(s, d, name, parts);
      if |paths| == 1 {
        assert paths == [paths[0]];
        OneMeansOnly(s, d, name, paths[0]);
      }
      NoneIff(s, d, name);
    }
  }

  lemma NoneIff(s: Schema, d: TypeId, name: string)
    requires WellFormed(s) && d < |s| && Size(s, d, {}).Some?
    ensures Paths(s, d, name, {}) == [] <==> forall p :: !LeafNamed(s, d, name, p)
    ensures forall i | 0 <= i < |Paths(s, d, name, {})| :: Paths(s, d, name, {})[i] != []
  {
    hide WellFormed, Size, Paths, Leads;
    var paths := Paths(s, d, name, {});
    forall p
      ensures p in paths <==> LeafNamed(s, d, name, p)
    {
      PathsAre(s, d, name, {}, p);
    }
    assert forall i | 0 <= i < |paths| :: paths[i] in paths;
    assert paths != [] ==> LeafNamed(s, d, name, paths[0]);
  }

  // ---- idempotence ----

  /** What leads somewhere is resolved to itself. */
  lemma {:induction false} LeadsWalk(s: Schema, d: TypeId, parts: seq<string>, depth: nat, path: string)
    requires WellFormed(s) && d < |s| && Leads(s, d, parts) && depth + |parts| <= MaxDepth
    ensures Walk(s, d, parts, depth, path) == Path(path)
    decreases |parts|
  {
    LookupOk(s, d, parts[0]);
    if |parts| > 1 {
      LeadsWalk(s, Lookup(s[d], parts[0]).value.shape.message, parts[1..], depth + 1, path);
    }
  }

  lemma {:induction false} LeadsPlain(s: Schema, d: TypeId, parts: seq<string>)
    requires WellFormed(s) && d < |s| && Leads(s, d, parts)
    ensures Plain(parts)
    decreases |parts|
  {
    LookupOk(s, d, parts[0]);
    if |parts| > 1 {
      LeadsPlain(s, Lookup(s[d], parts[0]).value.shape.message, parts[1..]);
      assert forall i | 1 <= i < |parts| :: parts[i] == parts[1..][i - 1];
    }
  }

  /** A nested path that was found resolves to itself if it is not too long. */
  lemma FoundIsCanonical(s: Schema, d: TypeId, name: string, parts: seq<string>)
    requires WellFormed(s) && d < |s| && Bare(s, d, name) && Searchable(s, d) && parts in Paths(s, d, name, {})
    ensures parts != [] && '.' in Join(parts)
    ensures |Join(parts)| <= MaxPath ==> Canon(s, d, Join(parts)) == Path(Join(parts))
  {
    hide WellFormed, Size, Paths, FieldOk;
    PathsAre(s, d, name, {}, parts);
    PathsShort(s, d, name, {}, parts);
    assert |parts| > 1;
    JoinHasDot(parts);
    LeadsPlain(s, d, parts);
    SplitJoin("", parts);
    assert "" + Join(parts) == Join(parts);
    hide Leads, Split, Lookup;
    LeadsWalk(s, d, parts, 0, Join(parts));
  }

  /** Resolving a resolved path changes nothing, exactly when the path is within the length limit. */
  lemma CanonicalIsStable(s: Schema, d: TypeId, path: string)
    requires WellFormed(s) && d < |s| && Canon(s, d, path).Path?
    ensures var p := Canon(s, d, path).path; Canon(s, d, p) == Path(p) <==> |p| <= 4096
  {
    var p := Canon(s, d, path).path;
    if '.' !in path && Lookup(s[d], path).None? {
      var parts := Paths(s, d, path, {})[0];
      assert parts in Paths(s, d, path, {});
      FoundIsCanonical(s, d, path, parts);
    } else {
      ResolvedToItself(s, d, path);
    }
  }

  lemma ResolvedToItself(s: Schema, d: TypeId, path: string)
    requires WellFormed(s) && d < |s| && Canon(s, d, path).Path? && ('.' in path || Lookup(s[d], path).Some?)
    ensures Canon(s, d, path) == Path(path) && |path| <= MaxPath
  {
    hide WellFormed, Size, Paths;
    if '.' in path {
      WalkPath(s, d, Split(path, 0), 0, path);
    }
  }

  lemma {:induction false} WalkPath(s: Schema, d: TypeId, parts: seq<string>, depth: nat, path: string)
    requires WellFormed(s) && d < |s| && parts != [] && Walk(s, d, parts, depth, path).Path?
    ensures Walk(s, d, parts, depth, path) == Path(path) && Leads(s, d, parts)
    decreases |parts|
  {
    LookupOk(s, d, parts[0]);
    if |parts| > 1 {
      WalkPath(s, Lookup(s[d], parts[0]).value.shape.message, parts[1..], depth + 1, path);
    }
  }

  // ---- where stability fails ----

  const LongName: string := seq(4095, _ => 'a')

  const LongSchema: Schema := [[Field("m", false, Nested(1))], [Field(LongName, false, Scalar)]]

  /** A leaf whose own name is short enough and whose path is not: resolving it twice is refused. */
  lemma StabilityFails()
    ensures WellFormed(LongSchema)
    ensures Canon(LongSchema, 0, LongName) == Path("m." + LongName) && Canon(LongSchema, 0, "m." + LongName) == Bad
  {
    var s := LongSchema;
    assert FieldsOk(s, s[0]) && FieldsOk(s, s[1]) && WellFormed(s);
    assert |LongName| == 4095;
    assert {} + {0} == {0} && {0} + {1} == {0, 1};
    assert Lookup(s[0], LongName).None?;
    assert SizeUpTo(s, 1, 0, {0, 1}) == Some(0) && SizeUpTo(s, 1, 1, {0, 1}) == Some(1);
    assert Size(s, 1, {0}) == Some(1);
    assert SizeUpTo(s, 0, 0, {0}) == Some(0) && SizeUpTo(s, 0, 1, {0}) == Some(2);
    assert Size(s, 0, {}) == Some(2);
    assert PathsUpTo(s, 1, 0, LongName, {0, 1}) == [] && PathsUpTo(s, 1, 1, LongName, {0, 1}) == [[LongName]];
    assert Paths(s, 1, LongName, {0}) == [[LongName]];
    assert ["m"] + [LongName] == ["m", LongName];
    assert PathsUpTo(s, 0, 0, LongName, {0}) == [] && Below("m", [[LongName]])[0] == ["m"] + [LongName];
    assert Below("m", [[LongName]]) == [["m", LongName]];
    assert PathsUpTo(s, 0, 1, LongName, {0}) == [["m", LongName]];
    assert Paths(s, 0, LongName, {}) == [["m", LongName]];
    assert Join(["m", LongName]) == "m." + LongName by {
      assert ["m", LongName][1..] == [LongName];
    }
  }
}
