/** The searched paths are exactly the leaves of that name, each once. */
module RpcLeaves {
  import opened Basics
  import opened RpcSchema

  ghost predicate LeafNamed(s: Schema, d: TypeId, leaf: string, parts: seq<string>)
    requires WellFormed(s) && d < |s|
  {
    parts != [] && Leads(s, d, parts) && parts[|parts| - 1] == leaf
  }

  predicate Among(fields: seq<Field>, n: nat, name: string)
    requires n <= |fields|
  {
    exists i | 0 <= i < n :: fields[i].name == name
  }

  lemma BelowIs(name: string, paths: seq<seq<string>>, parts: seq<string>)
    ensures parts in Below(name, paths) <==> parts != [] && parts[0] == name && parts[1..] in paths
  {
    if parts in Below(name, paths) {
      var i :| 0 <= i < |paths| && parts == [name] + paths[i];
      assert parts[1..] == paths[i];
    }
    if parts != [] && parts[0] == name && parts[1..] in paths {
      var i :| 0 <= i < |paths| && paths[i] == parts[1..];
      assert parts == [name] + paths[i] == Below(name, paths)[i];
    }
  }

  lemma {:induction false} PathsAre(s: Schema, d: TypeId, leaf: string, ancestors: set<TypeId>, parts: seq<string>)
    requires WellFormed(s) && d < |s| && Size(s, d, ancestors).Some?
    ensures parts in Paths(s, d, leaf, ancestors) <==> LeafNamed(s, d, leaf, parts)
    decreases MaxDepth - |ancestors|, 0
  {
    PathsUpToAre(s, d, |s[d]|, leaf, ancestors + {d}, parts);
    if parts != [] {
      LookupIs(s[d], parts[0]);
    }
  }

  /** The paths through one field. */
  ghost function Through(s: Schema, f: Field, leaf: string, ancestors: set<TypeId>): seq<seq<string>>
    requires WellFormed(s) && FieldOk(s, f)
  {
    if f.repeated then []
    else if f.shape.Nested? then Below(f.name, Paths(s, f.shape.message, leaf, ancestors))
    else if f.name == leaf then [[f.name]] else []
  }

  lemma {:induction false} ThroughIs(s: Schema, d: TypeId, n: nat, leaf: string, ancestors: set<TypeId>, parts: seq<string>)
    requires WellFormed(s) && d < |s| && n < |s[d]| && FieldOk(s, s[d][n])
    requires s[d][n].repeated || s[d][n].shape.Scalar? || Size(s, s[d][n].shape.message, ancestors).Some?
    ensures parts in Through(s, s[d][n], leaf, ancestors)
            <==> LeafNamed(s, d, leaf, parts) && parts[0] == s[d][n].name
    decreases MaxDepth - |ancestors|, 1
  {
    var f := s[d][n];
    assert FieldsOk(s, s[d]);
    LookupAt(s, s[d], n);
    if !f.repeated && f.shape.Nested? {
      BelowIs(f.name, Paths(s, f.shape.message, leaf, ancestors), parts);
      if parts != [] && parts[0] == f.name {
        PathsAre(s, f.shape.message, leaf, ancestors, parts[1..]);
      }
    } else if parts in Through(s, f, leaf, ancestors) {
      assert parts == [f.name];
    } else if !f.repeated && f.name == leaf {
      assert parts != [f.name] by {
        assert [f.name] in Through(s, f, leaf, ancestors);
      }
    }
  }

  lemma {:induction false} PathsUpToAre(s: Schema, d: TypeId, n: nat, leaf: string, ancestors: set<TypeId>, parts: seq<string>)
    requires WellFormed(s) && d < |s| && n <= |s[d]| && SizeUpTo(s, d, n, ancestors).Some?
    ensures parts in PathsUpTo(s, d, n, leaf, ancestors)
            <==> LeafNamed(s, d, leaf, parts) && Among(s[d], n, parts[0])
    decreases MaxDepth - |ancestors|, n + 2
  {
    if n > 0 {
      assert FieldsOk(s, s[d]) && FieldOk(s, s[d][n - 1]);
      PathsUpToAre(s, d, n - 1, leaf, ancestors, parts);
      ThroughIs(s, d, n - 1, leaf, ancestors, parts);
      assert PathsUpTo(s, d, n, leaf, ancestors)
             == PathsUpTo(s, d, n - 1, leaf, ancestors) + Through(s, s[d][n - 1], leaf, ancestors);
      hide Leads, WellFormed, FieldOk, PathsUpTo, Through;
    }
  }

  // ---- each once ----

  lemma BelowDistinct(name: string, paths: seq<seq<string>>)
    requires Distinct(paths)
    ensures Distinct(Below(name, paths))
  {
    forall i, j | 0 <= i < j < |paths|
      ensures Below(name, paths)[i] != Below(name, paths)[j]
    {
      assert Below(name, paths)[i][1..] == paths[i] && Below(name, paths)[j][1..] == paths[j];
    }
  }

  lemma {:induction false} PathsDistinct(s: Schema, d: TypeId, leaf: string, ancestors: set<TypeId>)
    requires WellFormed(s) && d < |s| && Size(s, d, ancestors).Some?
    ensures Distinct(Paths(s, d, leaf, ancestors))
    decreases MaxDepth - |ancestors|, 0
  {
    PathsUpToDistinct(s, d, |s[d]|, leaf, ancestors + {d});
  }

  lemma {:induction false} PathsUpToDistinct(s: Schema, d: TypeId, n: nat, leaf: string, ancestors: set<TypeId>)
    requires WellFormed(s) && d < |s| && n <= |s[d]| && SizeUpTo(s, d, n, ancestors).Some?
    ensures Distinct(PathsUpTo(s, d, n, leaf, ancestors))
    decreases MaxDepth - |ancestors|, n + 1
  {
    if n > 0 {
      var f := s[d][n - 1];
      assert FieldsOk(s, s[d]) && FieldOk(s, f);
      PathsUpToDistinct(s, d, n - 1, leaf, ancestors);
      var before, here := PathsUpTo(s, d, n - 1, leaf, ancestors), Through(s, f, leaf, ancestors);
      if !f.repeated && f.shape.Nested? {
        PathsDistinct(s, f.shape.message, leaf, ancestors);
        BelowDistinct(f.name, Paths(s, f.shape.message, leaf, ancestors));
      }
      forall i, j | 0 <= i < |before| && 0 <= j < |here|
        ensures before[i] != here[j]
      {
        PathsUpToAre(s, d, n - 1, leaf, ancestors, before[i]);
        ThroughIs(s, d, n - 1, leaf, ancestors, here[j]);
        assert before[i] in before && here[j] in here;
      }
      assert PathsUpTo(s, d, n, leaf, ancestors) == before + here;
    }
  }

  // ---- short enough to be written out ----

  lemma {:induction false} PathsShort(s: Schema, d: TypeId, leaf: string, ancestors: set<TypeId>, parts: seq<string>)
    requires WellFormed(s) && d < |s| && parts in Paths(s, d, leaf, ancestors)
    ensures |parts| + |ancestors| <= MaxDepth
    decreases MaxDepth - |ancestors|, 0
  {
    PathsUpToShort(s, d, |s[d]|, leaf, ancestors + {d}, parts);
  }

  lemma {:induction false} PathsUpToShort(s: Schema, d: TypeId, n: nat, leaf: string, ancestors: set<TypeId>, parts: seq<string>)
    requires WellFormed(s) && d < |s| && n <= |s[d]| && parts in PathsUpTo(s, d, n, leaf, ancestors)
    requires |ancestors| <= MaxDepth
    ensures |parts| + |ancestors| <= MaxDepth + 1
    decreases MaxDepth - |ancestors|, n + 1
  {
    var f := s[d][n - 1];
    assert FieldsOk(s, s[d]) && FieldOk(s, f);
    if parts in PathsUpTo(s, d, n - 1, leaf, ancestors) {
      PathsUpToShort(s, d, n - 1, leaf, ancestors, parts);
    } else if f.shape.Nested? {
      BelowIs(f.name, Paths(s, f.shape.message, leaf, ancestors), parts);
      PathsShort(s, f.shape.message, leaf, ancestors, parts[1..]);
    } else {
      assert parts == [f.name];
    }
  }
}
