/** What a request schema must be like to be searched, and what each kind of argument name comes to. */
module RpcSearch {
  import opened Basics
  import opened RpcSchema
  import opened RpcLeaves
  import opened RpcPaths
  import opened RpcTheorems

  // ---- depth and recursion ----

  /** A message of type a holds a message of type b. */
  ghost predicate Holds(s: Schema, a: TypeId, b: TypeId) {
    a < |s| && exists i | 0 <= i < |s[a]| :: !s[a][i].repeated && s[a][i].shape == Nested(b)
  }

  /** Types each of which holds the next. */
  ghost predicate Chain(s: Schema, d: TypeId, chain: seq<TypeId>) {
    chain != [] && chain[0] == d && forall i | 0 < i < |chain| :: Holds(s, chain[i - 1], chain[i])
  }

  ghost predicate Once(chain: seq<TypeId>) {
    forall i, j | 0 <= i < j < |chain| :: chain[i] != chain[j]
  }

  ghost predicate Fits(chain: seq<TypeId>, ancestors: set<TypeId>) {
    |ancestors| + |chain| <= 32 && Once(chain) && forall i | 0 <= i < |chain| :: chain[i] !in ancestors
  }

  lemma {:induction false} SizedBelow(s: Schema, d: TypeId, n: nat, ancestors: set<TypeId>, i: nat)
    requires WellFormed(s) && d < |s| && i < n <= |s[d]| && SizeUpTo(s, d, n, ancestors).Some?
    requires !s[d][i].repeated && s[d][i].shape.Nested?
    ensures s[d][i].shape.message < |s| && Size(s, s[d][i].shape.message, ancestors).Some?
    decreases n
  {
    assert FieldsOk(s, s[d]) && FieldOk(s, s[d][i]);
    if i < n - 1 {
      SizedBelow(s, d, n - 1, ancestors, i);
    }
  }

  lemma FitsOn(chain: seq<TypeId>, ancestors: set<TypeId>)
    requires chain != [] && |ancestors| < 32 && chain[0] !in ancestors
    ensures Fits(chain, ancestors) <==> |chain| == 1 || Fits(chain[1..], ancestors + {chain[0]})
  {
    var rest := chain[1..];
    assert forall i | 0 <= i < |rest| :: rest[i] == chain[i + 1];
    assert forall i | 0 < i < |chain| :: chain[i] == rest[i - 1];
  }

  lemma {:induction false} SizedChainsFit(s: Schema, d: TypeId, ancestors: set<TypeId>, chain: seq<TypeId>)
    requires WellFormed(s) && d < |s| && Size(s, d, ancestors).Some? && Chain(s, d, chain)
    ensures Fits(chain, ancestors)
    decreases |chain|
  {
    FitsOn(chain, ancestors);
    if |chain| > 1 {
      assert Holds(s, chain[0], chain[1]);
      var i :| 0 <= i < |s[d]| && !s[d][i].repeated && s[d][i].shape == Nested(chain[1]);
      SizedBelow(s, d, |s[d]|, ancestors + {d}, i);
      assert Chain(s, chain[1], chain[1..]) by {
        assert forall k | 0 < k < |chain[1..]| :: Holds(s, chain[k], chain[k + 1]);
      }
      SizedChainsFit(s, chain[1], ancestors + {d}, chain[1..]);
    }
  }

  lemma {:induction false} UnsizedField(s: Schema, d: TypeId, n: nat, ancestors: set<TypeId>) returns (i: nat)
    requires WellFormed(s) && d < |s| && n <= |s[d]| && SizeUpTo(s, d, n, ancestors).None?
    ensures i < n && !s[d][i].repeated && s[d][i].shape.Nested? && s[d][i].shape.message < |s|
    ensures Size(s, s[d][i].shape.message, ancestors).None?
    decreases n
  {
    assert FieldsOk(s, s[d]) && FieldOk(s, s[d][n - 1]);
    if SizeUpTo(s, d, n - 1, ancestors).None? {
      i := UnsizedField(s, d, n - 1, ancestors);
    } else {
      i := n - 1;
    }
  }

  lemma {:induction false} UnsizedChain(s: Schema, d: TypeId, ancestors: set<TypeId>) returns (chain: seq<TypeId>)
    requires WellFormed(s) && d < |s| && Size(s, d, ancestors).None?
    ensures Chain(s, d, chain) && !Fits(chain, ancestors)
    decreases MaxDepth - |ancestors|
  {
    if |ancestors| >= MaxDepth || d in ancestors {
      chain := [d];
      assert chain[0] == d;
    } else {
      var i := UnsizedField(s, d, |s[d]|, ancestors + {d});
      var rest := UnsizedChain(s, s[d][i].shape.message, ancestors + {d});
      chain := [d] + rest;
      assert Holds(s, d, rest[0]);
      assert chain[1..] == rest;
      forall k | 0 < k < |chain|
        ensures Holds(s, chain[k - 1], chain[k])
      {
        if k > 1 {
          assert Holds(s, rest[k - 2], rest[k - 1]);
        }
      }
      FitsOn(chain, ancestors);
    }
  }

  /** The tree has a size exactly if no chain of held messages is longer than 32 or comes back to a type it has been at. */
  lemma SizedIff(s: Schema, d: TypeId)
    requires WellFormed(s) && d < |s|
    ensures Size(s, d, {}).Some? <==> forall chain :: Chain(s, d, chain) ==> |chain| <= 32 && Once(chain)
  {
    hide Size, Chain, WellFormed;
    if Size(s, d, {}).Some? {
      forall chain | Chain(s, d, chain)
        ensures |chain| <= 32 && Once(chain)
      {
        SizedChainsFit(s, d, {}, chain);
      }
    } else {
      var chain := UnsizedChain(s, d, {});
    }
  }

  // ---- how many fields ----

  /** The parts lead through singular messages to a field of any kind. */
  ghost predicate Reaches(s: Schema, d: TypeId, parts: seq<string>)
    requires WellFormed(s) && d < |s|
    decreases |parts|
  {
    parts != []
    && match Lookup(s[d], parts[0])
       case None => false
       case Some(f) =>
         |parts| == 1
         || (!f.repeated && f.shape.Nested? && (LookupOk(s, d, parts[0]); Reaches(s, f.shape.message, parts[1..])))
  }

  /** Every field of the tree, by its path. */
  ghost function Everything(s: Schema, d: TypeId, ancestors: set<TypeId>): seq<seq<string>>
    requires WellFormed(s) && d < |s|
    decreases MaxDepth - |ancestors|, 0
  {
    if |ancestors| >= MaxDepth || d in ancestors then [] else UpTo(s, d, |s[d]|, ancestors + {d})
  }

  ghost function UpTo(s: Schema, d: TypeId, n: nat, ancestors: set<TypeId>): seq<seq<string>>
    requires WellFormed(s) && d < |s| && n <= |s[d]|
    decreases MaxDepth - |ancestors|, n + 1
  {
    if n == 0 then []
    else
      var f := s[d][n - 1];
      assert FieldsOk(s, s[d]) && FieldOk(s, f);
      UpTo(s, d, n - 1, ancestors) + [[f.name]]
      + if f.repeated || f.shape.Scalar? then [] else Below(f.name, Everything(s, f.shape.message, ancestors))
  }

  /** One field and what is below it. */
  ghost function Under(s: Schema, f: Field, ancestors: set<TypeId>): seq<seq<string>>
    requires WellFormed(s) && FieldOk(s, f)
  {
    [[f.name]] + if f.repeated || f.shape.Scalar? then [] else Below(f.name, Everything(s, f.shape.message, ancestors))
  }

  lemma UpToIs(s: Schema, d: TypeId, n: nat, ancestors: set<TypeId>)
    requires WellFormed(s) && d < |s| && n < |s[d]|
    ensures FieldOk(s, s[d][n]) && UpTo(s, d, n + 1, ancestors) == UpTo(s, d, n, ancestors) + Under(s, s[d][n], ancestors)
  {
    assert FieldsOk(s, s[d]);
    hide WellFormed, Everything;
  }

  lemma {:induction false} SizeCounts(s: Schema, d: TypeId, ancestors: set<TypeId>)
    requires WellFormed(s) && d < |s| && Size(s, d, ancestors).Some?
    ensures |Everything(s, d, ancestors)| == Size(s, d, ancestors).value
    decreases MaxDepth - |ancestors|, 0
  {
    SizeUpToCounts(s, d, |s[d]|, ancestors + {d});
  }

  lemma {:induction false} SizeUpToCounts(s: Schema, d: TypeId, n: nat, ancestors: set<TypeId>)
    requires WellFormed(s) && d < |s| && n <= |s[d]| && SizeUpTo(s, d, n, ancestors).Some?
    ensures |UpTo(s, d, n, ancestors)| == SizeUpTo(s, d, n, ancestors).value
    decreases MaxDepth - |ancestors|, n + 1
  {
    if n > 0 {
      assert FieldsOk(s, s[d]) && FieldOk(s, s[d][n - 1]);
      SizeUpToCounts(s, d, n - 1, ancestors);
      var f := s[d][n - 1];
      if !f.repeated && f.shape.Nested? {
        SizeCounts(s, f.shape.message, ancestors);
      }
      hide Everything, Size;
    }
  }

  lemma {:induction false} EverythingIs(s: Schema, d: TypeId, ancestors: set<TypeId>, parts: seq<string>)
    requires WellFormed(s) && d < |s| && Size(s, d, ancestors).Some?
    ensures parts in Everything(s, d, ancestors) <==> Reaches(s, d, parts)
    decreases MaxDepth - |ancestors|, 0
  {
    UpToReaches(s, d, |s[d]|, ancestors + {d}, parts);
    if parts != [] {
      LookupIs(s[d], parts[0]);
    }
  }

  lemma {:induction false} UnderIs(s: Schema, d: TypeId, n: nat, ancestors: set<TypeId>, parts: seq<string>)
    requires WellFormed(s) && d < |s| && n < |s[d]| && FieldOk(s, s[d][n])
    requires s[d][n].repeated || s[d][n].shape.Scalar? || Size(s, s[d][n].shape.message, ancestors).Some?
    ensures parts in Under(s, s[d][n], ancestors) <==> Reaches(s, d, parts) && parts[0] == s[d][n].name
    decreases MaxDepth - |ancestors|, 1
  {
    var f := s[d][n];
    assert FieldsOk(s, s[d]);
    LookupAt(s, s[d], n);
    assert [f.name] in Under(s, f, ancestors) by {
      assert Under(s, f, ancestors)[0] == [f.name];
    }
    assert parts != [] && parts[0] == f.name && |parts| == 1 ==> parts == [f.name];
    if !f.repeated && f.shape.Nested? {
      var below := Below(f.name, Everything(s, f.shape.message, ancestors));
      assert Under(s, f, ancestors) == [[f.name]] + below;
      BelowIs(f.name, Everything(s, f.shape.message, ancestors), parts);
      if parts != [] && parts[0] == f.name {
        EverythingIs(s, f.shape.message, ancestors, parts[1..]);
      }
    } else {
      assert Under(s, f, ancestors) == [[f.name]];
    }
  }

  lemma {:induction false} UpToReaches(s: Schema, d: TypeId, n: nat, ancestors: set<TypeId>, parts: seq<string>)
    requires WellFormed(s) && d < |s| && n <= |s[d]| && SizeUpTo(s, d, n, ancestors).Some?
    ensures parts in UpTo(s, d, n, ancestors) <==> Reaches(s, d, parts) && Among(s[d], n, parts[0])
    decreases MaxDepth - |ancestors|, n + 2
  {
    if n > 0 {
      hide Reaches, WellFormed, FieldOk, UpTo, Under, SizeUpTo, Size;
      SizedParts(s, d, n - 1, ancestors);
      UpToReaches(s, d, n - 1, ancestors, parts);
      UnderIs(s, d, n - 1, ancestors, parts);
      UpToIs(s, d, n - 1, ancestors);
    }
  }

  lemma {:induction false} EverythingOnce(s: Schema, d: TypeId, ancestors: set<TypeId>)
    requires WellFormed(s) && d < |s| && Size(s, d, ancestors).Some?
    ensures Distinct(Everything(s, d, ancestors))
    decreases MaxDepth - |ancestors|, 0
  {
    UpToOnce(s, d, |s[d]|, ancestors + {d});
  }

  lemma UnderOnce(f: Field, below: seq<seq<string>>)
    requires Distinct(below) && forall i | 0 <= i < |below| :: below[i] != []
    ensures Distinct([[f.name]] + Below(f.name, below))
  {
    BelowDistinct(f.name, below);
    var all := [[f.name]] + Below(f.name, below);
    forall i, j | 0 <= i < j < |all|
      ensures all[i] != all[j]
    {
      assert all[j] == Below(f.name, below)[j - 1] == [f.name] + below[j - 1];
    }
  }

  lemma {:induction false} UnderIsOnce(s: Schema, d: TypeId, n: nat, ancestors: set<TypeId>)
    requires WellFormed(s) && d < |s| && n < |s[d]| && FieldOk(s, s[d][n])
    requires s[d][n].repeated || s[d][n].shape.Scalar? || Size(s, s[d][n].shape.message, ancestors).Some?
    ensures Distinct(Under(s, s[d][n], ancestors))
    decreases MaxDepth - |ancestors|, 1
  {
    var f := s[d][n];
    if !f.repeated && f.shape.Nested? {
      var below := Everything(s, f.shape.message, ancestors);
      EverythingOnce(s, f.shape.message, ancestors);
      hide WellFormed, Everything, Size, Reaches;
      forall i | 0 <= i < |below|
        ensures below[i] != []
      {
        EverythingIs(s, f.shape.message, ancestors, below[i]);
        ReachesNonEmpty(s, f.shape.message, below[i]);
      }
      UnderOnce(f, below);
    }
  }

  lemma ReachesNonEmpty(s: Schema, d: TypeId, parts: seq<string>)
    requires WellFormed(s) && d < |s| && Reaches(s, d, parts)
    ensures parts != []
  {
  }

  /** What is under one field is not among what came before it. */
  lemma Apart(s: Schema, d: TypeId, n: nat, ancestors: set<TypeId>, parts: seq<string>)
    requires WellFormed(s) && d < |s| && n < |s[d]| && SizeUpTo(s, d, n + 1, ancestors).Some? && FieldOk(s, s[d][n])
    ensures parts in UpTo(s, d, n, ancestors) ==> parts !in Under(s, s[d][n], ancestors)
  {
    assert FieldsOk(s, s[d]);
    if parts in UpTo(s, d, n, ancestors) {
      UpToReaches(s, d, n, ancestors, parts);
      UnderIs(s, d, n, ancestors, parts);
      hide Reaches, WellFormed, FieldOk, UpTo, Under, SizeUpTo, Size;
    }
  }

  lemma DistinctJoin(a: seq<seq<string>>, b: seq<seq<string>>)
    requires Distinct(a) && Distinct(b) && forall x | x in a :: x !in b
    ensures Distinct(a + b)
  {
    forall i, j | 0 <= i < j < |a + b|
      ensures (a + b)[i] != (a + b)[j]
    {
      if i < |a| <= j {
        assert a[i] in a && b[j - |a|] in b;
      }
    }
  }

  lemma SizedParts(s: Schema, d: TypeId, n: nat, ancestors: set<TypeId>)
    requires WellFormed(s) && d < |s| && n < |s[d]| && SizeUpTo(s, d, n + 1, ancestors).Some?
    ensures SizeUpTo(s, d, n, ancestors).Some? && FieldOk(s, s[d][n])
    ensures s[d][n].repeated || s[d][n].shape.Scalar? || Size(s, s[d][n].shape.message, ancestors).Some?
  {
    assert FieldsOk(s, s[d]);
  }

  lemma {:induction false} UpToOnce(s: Schema, d: TypeId, n: nat, ancestors: set<TypeId>)
    requires WellFormed(s) && d < |s| && n <= |s[d]| && SizeUpTo(s, d, n, ancestors).Some?
    ensures Distinct(UpTo(s, d, n, ancestors))
    decreases MaxDepth - |ancestors|, n + 2
  {
    if n > 0 {
      hide WellFormed, UpTo, Under, SizeUpTo, Size, FieldOk, Distinct;
      SizedParts(s, d, n - 1, ancestors);
      UpToOnce(s, d, n - 1, ancestors);
      UnderIsOnce(s, d, n - 1, ancestors);
      UpToIs(s, d, n - 1, ancestors);
      var before, here := UpTo(s, d, n - 1, ancestors), Under(s, s[d][n - 1], ancestors);
      forall parts | parts in before
        ensures parts !in here
      {
        Apart(s, d, n - 1, ancestors, parts);
      }
      DistinctJoin(before, here);
    }
  }

  /** A list of all fields of the tree, each once. */
  ghost predicate Lists(s: Schema, d: TypeId, all: seq<seq<string>>)
    requires WellFormed(s) && d < |s|
  {
    Distinct(all) && forall parts :: parts in all <==> Reaches(s, d, parts)
  }

  /** A tree is searched exactly if it is nowhere deeper than 32, nowhere recursive, and has at most 4096 fields in all. */
  lemma SearchableIff(s: Schema, d: TypeId)
    requires WellFormed(s) && d < |s|
    ensures Searchable(s, d) <==>
              && (forall chain :: Chain(s, d, chain) ==> |chain| <= 32 && Once(chain))
              && exists all :: Lists(s, d, all) && |all| <= 4096
  {
    hide Size, Chain, WellFormed, Everything, Reaches, Once;
    SizedIff(s, d);
    if Size(s, d, {}).Some? {
      var all := Everything(s, d, {});
      SizeCounts(s, d, {});
      EverythingOnce(s, d, {});
      forall parts
        ensures parts in all <==> Reaches(s, d, parts)
      {
        EverythingIs(s, d, {}, parts);
      }
      assert Lists(s, d, all);
      forall other | Lists(s, d, other)
        ensures |other| == |all|
      {
        SameElements(all, other);
      }
    }
  }

  lemma SameElements(a: seq<seq<string>>, b: seq<seq<string>>)
    requires Distinct(a) && Distinct(b) && forall x :: x in a <==> x in b
    ensures |a| == |b|
  {
    Count(a);
    Count(b);
    assert (set x | x in a) == (set x | x in b);
  }

  lemma {:induction false} Count(a: seq<seq<string>>)
    requires Distinct(a)
    ensures |set x | x in a| == |a|
  {
    if a != [] {
      var rest, last := a[..|a| - 1], a[|a| - 1];
      Count(rest);
      assert last !in rest;
      assert (set x | x in a) == (set x | x in rest) + {last};
    }
  }

  // ---- dotted names ----

  /** The type that the first n parts lead to through singular messages. */
  ghost function Landing(s: Schema, d: TypeId, parts: seq<string>, n: nat): Option<TypeId>
    requires WellFormed(s) && d < |s| && n <= |parts|
    ensures Landing(s, d, parts, n).Some? ==> Landing(s, d, parts, n).value < |s|
  {
    if n == 0 then Some(d)
    else
      var at := Landing(s, d, parts, n - 1);
      if at.None? then None
      else
        var f := Lookup(s[at.value], parts[n - 1]);
        if f.Some? && !f.value.repeated && f.value.shape.Nested?
        then LookupOk(s, at.value, parts[n - 1]); Some(f.value.shape.message) else None
  }

  ghost predicate Singular(f: Option<Field>, nested: bool) {
    f.Some? && !f.value.repeated && f.value.shape.Nested? == nested
  }

  /** The last part is a singular scalar of the message the others lead to. */
  ghost predicate Arrives(s: Schema, d: TypeId, parts: seq<string>)
    requires WellFormed(s) && d < |s| && parts != []
  {
    var at := Landing(s, d, parts, |parts| - 1);
    at.Some? && Singular(Lookup(s[at.value], parts[|parts| - 1]), false)
  }

  /** Part i is no field of the message the parts before it lead to, or is a scalar with more to come. */
  ghost predicate Misses(s: Schema, d: TypeId, parts: seq<string>, i: nat)
    requires WellFormed(s) && d < |s| && i < |parts|
  {
    var at := Landing(s, d, parts, i);
    && at.Some? && parts[i] != ""
    && (Lookup(s[at.value], parts[i]).None? || (i + 1 < |parts| && Singular(Lookup(s[at.value], parts[i]), false)))
  }

  /** Landing, one part later. */
  lemma {:induction false} LandsOn(s: Schema, d: TypeId, parts: seq<string>, n: nat)
    requires WellFormed(s) && d < |s| && n < |parts| && Singular(Lookup(s[d], parts[0]), true)
    ensures Lookup(s[d], parts[0]).value.shape.message < |s|
    ensures Landing(s, d, parts, n + 1) == Landing(s, Lookup(s[d], parts[0]).value.shape.message, parts[1..], n)
    decreases n
  {
    LookupOk(s, d, parts[0]);
    hide WellFormed, Lookup;
    if n > 0 {
      LandsOn(s, d, parts, n - 1);
      assert parts[1..][n - 1] == parts[n];
    }
  }

  lemma {:induction false} LandsNowhere(s: Schema, d: TypeId, parts: seq<string>, n: nat)
    requires WellFormed(s) && d < |s| && 0 < n <= |parts| && !Singular(Lookup(s[d], parts[0]), true)
    ensures Landing(s, d, parts, n).None?
    decreases n
  {
    hide WellFormed, Lookup;
    if n > 1 {
      LandsNowhere(s, d, parts, n - 1);
    }
  }

  /** What a walk comes to. */
  ghost predicate Comes(s: Schema, d: TypeId, parts: seq<string>, depth: nat, path: string)
    requires WellFormed(s) && d < |s| && parts != []
  {
    var r := Walk(s, d, parts, depth, path);
    && (r.Path? <==> depth + |parts| <= 32 && Arrives(s, d, parts))
    && (r.Path? ==> r.path == path)
    && (r.Absent? <==> exists i | 0 <= i < |parts| && depth + i < 32 :: Misses(s, d, parts, i))
  }

  lemma {:induction false} WalkIs(s: Schema, d: TypeId, parts: seq<string>, depth: nat, path: string)
    requires WellFormed(s) && d < |s| && parts != []
    ensures Comes(s, d, parts, depth, path)
    decreases |parts|
  {
    var f := Lookup(s[d], parts[0]);
    if |parts| > 1 && Singular(f, true) && depth < 32 {
      LookupOk(s, d, parts[0]);
      WalkIs(s, f.value.shape.message, parts[1..], depth + 1, path);
      hide WellFormed, Lookup, Comes;
      WalksOn(s, d, parts, depth, path);
    } else {
      hide WellFormed, Lookup, Comes;
      WalkEnds(s, d, parts, depth, path);
    }
  }

  lemma WalksOn(s: Schema, d: TypeId, parts: seq<string>, depth: nat, path: string)
    requires WellFormed(s) && d < |s| && |parts| > 1 && Singular(Lookup(s[d], parts[0]), true) && depth < 32
    requires Lookup(s[d], parts[0]).value.shape.message < |s|
    requires Comes(s, Lookup(s[d], parts[0]).value.shape.message, parts[1..], depth + 1, path)
    ensures Comes(s, d, parts, depth, path)
  {
    var f := Lookup(s[d], parts[0]);
    var e := f.value.shape.message;
    LookupOk(s, d, parts[0]);
    assert Landing(s, d, parts, 0) == Some(d);
    hide WellFormed, Lookup, Landing;
    LandsOn(s, d, parts, |parts| - 2);
    assert parts[1..][|parts| - 2] == parts[|parts| - 1];
    assert Arrives(s, d, parts) <==> Arrives(s, e, parts[1..]);
    hide Arrives;
    forall i | 0 < i < |parts|
      ensures Misses(s, d, parts, i) <==> Misses(s, e, parts[1..], i - 1)
    {
      LandsOn(s, d, parts, i - 1);
      assert parts[1..][i - 1] == parts[i];
    }
    assert !Misses(s, d, parts, 0);
    MissesOn(s, d, e, parts, depth);
    hide Misses;
  }

  lemma WalkEnds(s: Schema, d: TypeId, parts: seq<string>, depth: nat, path: string)
    requires WellFormed(s) && d < |s| && parts != []
    requires |parts| == 1 || depth >= 32 || !Singular(Lookup(s[d], parts[0]), true)
    ensures Comes(s, d, parts, depth, path)
  {
    var f := Lookup(s[d], parts[0]);
    if f.Some? {
      LookupOk(s, d, parts[0]);
    }
    assert Landing(s, d, parts, 0) == Some(d);
    hide WellFormed, Lookup, Landing;
    forall i | 0 < i < |parts|
      ensures depth + i < 32 ==> !Misses(s, d, parts, i)
    {
      if !Singular(f, true) {
        LandsNowhere(s, d, parts, i);
      }
    }
    if |parts| > 1 && !Singular(f, true) {
      LandsNowhere(s, d, parts, |parts| - 1);
    }
    assert Walk(s, d, parts, depth, path).Absent? <==> depth < 32 && Misses(s, d, parts, 0);
  }

  lemma MissesOn(s: Schema, d: TypeId, e: TypeId, parts: seq<string>, depth: nat)
    requires WellFormed(s) && d < |s| && e < |s| && |parts| > 1 && !Misses(s, d, parts, 0)
    requires forall i | 0 < i < |parts| :: Misses(s, d, parts, i) <==> Misses(s, e, parts[1..], i - 1)
    ensures (exists i | 0 <= i < |parts| && depth + i < 32 :: Misses(s, d, parts, i))
            <==> exists i | 0 <= i < |parts[1..]| && depth + 1 + i < 32 :: Misses(s, e, parts[1..], i)
  {
    hide WellFormed, Misses;
    if i :| 0 <= i < |parts| && depth + i < 32 && Misses(s, d, parts, i) {
      assert Misses(s, e, parts[1..], i - 1);
    }
    if i :| 0 <= i < |parts[1..]| && depth + 1 + i < 32 && Misses(s, e, parts[1..], i) {
      assert Misses(s, d, parts, i + 1);
    }
  }

  /**
   A dotted name of at most 4096 characters stands for itself exactly if it has at most 32 parts that lead through singular
   messages to a singular scalar.  It is absent exactly if, within that depth, it names a field that does not exist or
   goes on below a scalar.  Otherwise it is refused, as every longer one is.
   */
  lemma DottedIs(s: Schema, d: TypeId, path: string)
    requires WellFormed(s) && d < |s| && '.' in path
    ensures var parts, r := Split(path, 0), Canon(s, d, path);
            && (r.Path? <==> |path| <= 4096 && |parts| <= 32 && Arrives(s, d, parts))
            && (r.Path? ==> r.path == path)
            && (r.Absent? <==> |path| <= 4096 && exists i | 0 <= i < |parts| && i < 32 :: Misses(s, d, parts, i))
  {
    hide Split, Walk, Landing, Lookup, WellFormed, Size, Paths;
    WalkIs(s, d, Split(path, 0), 0, path);
  }

  /** A name of the request's own fields stands for itself exactly if the field is a singular scalar; no other is asked. */
  lemma OwnFieldIs(s: Schema, d: TypeId, name: string)
    requires WellFormed(s) && d < |s| && '.' !in name && Lookup(s[d], name).Some?
    ensures Canon(s, d, name) == if |name| <= 4096 && Singular(Lookup(s[d], name), false) then Path(name) else Bad
  {
    hide Size, Paths, Split, Walk;
    LookupOk(s, d, name);
  }

  /** The empty name is refused, and so is every name of more than 4096 characters. */
  lemma UnusableIs(s: Schema, d: TypeId, name: string)
    requires WellFormed(s) && d < |s| && (name == "" || |name| > 4096)
    ensures Canon(s, d, name) == Bad
  {
    hide Size, Paths, Split, Walk;
  }
}
