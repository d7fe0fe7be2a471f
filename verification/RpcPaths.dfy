/** Canonical argument paths: a dotted path, a top-level name, or a bare name that stands for one nested leaf. */
module RpcPaths {
  import opened Basics
  import opened RpcSchema
  import opened RpcLeaves

  const MaxPath := 4096

  datatype Canonical = Bad | Absent | Path(path: string)

  // ---- dotted strings ----

  function Join(parts: seq<string>): string
    requires parts != []
  {
    if |parts| == 1 then parts[0] else parts[0] + "." + Join(parts[1..])
  }

  /** The position of the first dot from here on, or the end. */
  function Dot(path: string, begin: nat): (end: nat)
    requires begin <= |path|
    ensures begin <= end <= |path| && '.' !in path[begin..end] && (end < |path| ==> path[end] == '.')
    decreases |path| - begin
  {
    if begin == |path| || path[begin] == '.' then begin
    else
      var end := Dot(path, begin + 1);
      assert path[begin..end] == [path[begin]] + path[begin + 1..end];
      end
  }

  function Split(path: string, begin: nat): (parts: seq<string>)
    requires begin <= |path|
    ensures parts != []
    decreases |path| - begin
  {
    var end := Dot(path, begin);
    if end == |path| then [path[begin..]] else [path[begin..end]] + Split(path, end + 1)
  }

  predicate Plain(parts: seq<string>) {
    forall i | 0 <= i < |parts| :: '.' !in parts[i]
  }

  lemma DotIs(path: string, begin: nat, end: nat)
    requires begin <= end <= |path| && '.' !in path[begin..end] && (end < |path| ==> path[end] == '.')
    ensures Dot(path, begin) == end
  {
    NoDot(path, begin, end);
    NoDot(path, begin, Dot(path, begin));
  }

  lemma NoDot(path: string, begin: nat, end: nat)
    requires begin <= end <= |path| && '.' !in path[begin..end]
    ensures forall i | begin <= i < end :: path[i] != '.'
  {
    forall i | begin <= i < end
      ensures path[i] != '.'
    {
      assert path[begin..end][i - begin] == path[i];
    }
  }

  /** Splitting undoes joining. */
  lemma {:induction false} SplitJoin(before: string, parts: seq<string>)
    requires parts != [] && Plain(parts)
    ensures Split(before + Join(parts), |before|) == parts
    decreases |parts|
  {
    if |parts| == 1 {
      SplitLast(before, parts[0]);
    } else {
      hide Split, Dot;
      var rest := Join(parts[1..]);
      SplitFirst(before, parts[0], rest);
      SplitJoin(before + parts[0] + ".", parts[1..]);
      Regroup(before, parts[0], rest);
      assert parts == [parts[0]] + parts[1..];
    }
  }

  lemma Regroup(a: string, b: string, c: string)
    ensures a + (b + "." + c) == a + b + "." + c
  {
  }

  lemma SplitLast(before: string, part: string)
    requires '.' !in part
    ensures Split(before + part, |before|) == [part]
  {
    var path := before + part;
    assert path[|before|..] == part && path[|before|..|path|] == part;
    DotIs(path, |before|, |path|);
  }

  lemma SplitFirst(before: string, part: string, rest: string)
    requires '.' !in part
    ensures Split(before + part + "." + rest, |before|)
            == [part] + Split(before + part + "." + rest, |before + part + "."|)
  {
    var path := before + part + "." + rest;
    var end := |before| + |part|;
    assert path[|before|..end] == part && path[end] == '.';
    DotIs(path, |before|, end);
  }

  lemma {:induction false} JoinHasDot(parts: seq<string>)
    requires |parts| > 1
    ensures '.' in Join(parts) && Join(parts) != ""
  {
    assert Join(parts)[|parts[0]|] == '.';
  }

  // ---- the rule ----

  /** Follows a dotted path from a type. */
  function Walk(s: Schema, d: TypeId, parts: seq<string>, depth: nat, path: string): Canonical
    requires WellFormed(s) && d < |s| && parts != []
    decreases |parts|
  {
    if depth >= MaxDepth || parts[0] == "" then Bad
    else
      match Lookup(s[d], parts[0])
      case None => Absent
      case Some(f) =>
        if f.repeated then Bad
        else if |parts| == 1 then if f.shape.Nested? then Bad else Path(path)
        else if f.shape.Scalar? then Absent
        else LookupOk(s, d, parts[0]); Walk(s, f.shape.message, parts[1..], depth + 1, path)
  }

  ghost predicate Searchable(s: Schema, d: TypeId)
    requires WellFormed(s) && d < |s|
  {
    Size(s, d, {}).Some? && Size(s, d, {}).value <= MaxFields
  }

  ghost function Canon(s: Schema, d: TypeId, path: string): Canonical
    requires WellFormed(s) && d < |s|
  {
    if path == "" || |path| > MaxPath then Bad
    else if '.' in path then Walk(s, d, Split(path, 0), 0, path)
    else
      match Lookup(s[d], path)
      case Some(f) => if f.shape.Nested? || f.repeated then Bad else Path(path)
      case None =>
        if !Searchable(s, d) then Bad
        else
          var paths := Paths(s, d, path, {});
          if |paths| > 1 then Bad else if |paths| == 1 && paths[0] != [] then Path(Join(paths[0])) else Absent
  }

  // ---- the search ----

  lemma {:induction false} SizeGrows(s: Schema, d: TypeId, i: nat, n: nat, ancestors: set<TypeId>)
    requires WellFormed(s) && d < |s| && i <= n <= |s[d]| && SizeUpTo(s, d, n, ancestors).Some?
    ensures SizeUpTo(s, d, i, ancestors).Some?
    ensures SizeUpTo(s, d, i, ancestors).value <= SizeUpTo(s, d, n, ancestors).value
    decreases n
  {
    if i < n {
      SizeGrows(s, d, i, n - 1, ancestors);
    }
  }

  ghost function LastOr(prefix: string, paths: seq<seq<string>>, out: string): string
  {
    if paths == [] || paths[|paths| - 1] == [] then out else prefix + Join(paths[|paths| - 1])
  }

  /** The state of a search after some of the fields of a type. */
  ghost predicate Searched(s: Schema, d: TypeId, n: nat, leaf: string, inner: set<TypeId>, prefix: string, out: string,
                           count: nat, remaining: nat, found: string, total: nat, left: nat)
    requires WellFormed(s) && d < |s| && n <= |s[d]|
  {
    && SizeUpTo(s, d, n, inner).Some? && left + SizeUpTo(s, d, n, inner).value == remaining
    && total == count + |PathsUpTo(s, d, n, leaf, inner)|
    && found == LastOr(prefix, PathsUpTo(s, d, n, leaf, inner), out)
  }

  lemma SearchStarts(s: Schema, d: TypeId, leaf: string, inner: set<TypeId>, prefix: string, out: string, count: nat, remaining: nat)
    requires WellFormed(s) && d < |s|
    ensures Searched(s, d, 0, leaf, inner, prefix, out, count, remaining, out, count, remaining)
  {
  }

  lemma SearchStops(s: Schema, d: TypeId, n: nat, ancestors: set<TypeId>, remaining: nat)
    requires WellFormed(s) && d < |s| && n <= |s[d]| && |ancestors| < MaxDepth && d !in ancestors
    requires SizeUpTo(s, d, n, ancestors + {d}).None? || SizeUpTo(s, d, n, ancestors + {d}).value > remaining
    ensures Size(s, d, ancestors).None? || Size(s, d, ancestors).value > remaining
  {
    hide SizeUpTo;
    if Size(s, d, ancestors).Some? {
      SizeGrows(s, d, n, |s[d]|, ancestors + {d});
    }
  }

  lemma SearchEnds(s: Schema, d: TypeId, leaf: string, ancestors: set<TypeId>, prefix: string, out: string, count: nat,
                   remaining: nat, found: string, total: nat, left: nat)
    requires WellFormed(s) && d < |s| && |ancestors| < MaxDepth && d !in ancestors
    requires Searched(s, d, |s[d]|, leaf, ancestors + {d}, prefix, out, count, remaining, found, total, left)
    ensures Size(s, d, ancestors).Some? && left + Size(s, d, ancestors).value == remaining
    ensures total == count + |Paths(s, d, leaf, ancestors)|
    ensures found == LastOr(prefix, Paths(s, d, leaf, ancestors), out)
  {
    hide SizeUpTo, PathsUpTo, LastOr;
  }

  /** Counts the leaves of a name below a type, keeps the last path found, and spends the field budget. */
  method FindLeafPath(s: Schema, d: TypeId, leaf: string, prefix: string, out: string, count: nat, remaining: nat,
                      ancestors: set<TypeId>)
    returns (ok: bool, found: string, total: nat, left: nat)
    requires WellFormed(s) && d < |s|
    ensures ok <==> Size(s, d, ancestors).Some? && Size(s, d, ancestors).value <= remaining
    ensures ok ==> left + Size(s, d, ancestors).value == remaining
    ensures ok ==> total == count + |Paths(s, d, leaf, ancestors)|
    ensures ok ==> found == LastOr(prefix, Paths(s, d, leaf, ancestors), out)
    decreases MaxDepth - |ancestors|, 0
  {
    hide Searched, SizeUpTo, PathsUpTo, LastOr, WellFormed;
    found, total, left := out, count, remaining;
    if |ancestors| >= MaxDepth || d in ancestors {
      return false, found, total, left;
    }
    hide Size, Paths;
    var inner := ancestors + {d};
    SearchStarts(s, d, leaf, inner, prefix, out, count, remaining);
    for i := 0 to |s[d]|
      invariant Searched(s, d, i, leaf, inner, prefix, out, count, remaining, found, total, left)
    {
      ok, found, total, left := Visit(s, d, i, leaf, prefix, out, found, count, total, remaining, left, inner);
      if !ok {
        SearchStops(s, d, i + 1, ancestors, remaining);
        return;
      }
    }
    SearchEnds(s, d, leaf, ancestors, prefix, out, count, remaining, found, total, left);
    ok := true;
  }

  /** One field of the type being searched. */
  method Visit(s: Schema, d: TypeId, i: nat, leaf: string, prefix: string, ghost out: string, before: string,
               ghost count: nat, sum: nat, ghost remaining: nat, budget: nat, inner: set<TypeId>)
    returns (ok: bool, found: string, total: nat, left: nat)
    requires WellFormed(s) && d < |s| && i < |s[d]|
    requires Searched(s, d, i, leaf, inner, prefix, out, count, remaining, before, sum, budget)
    ensures ok ==> Searched(s, d, i + 1, leaf, inner, prefix, out, count, remaining, found, total, left)
    ensures !ok ==> SizeUpTo(s, d, i + 1, inner).None? || SizeUpTo(s, d, i + 1, inner).value > remaining
    decreases MaxDepth - |inner|, 1
  {
    found, total, left := before, sum, budget;
    var f := s[d][i];
    VisitIs(s, d, i, leaf, prefix, out, inner);
    hide SizeUpTo, PathsUpTo, Size, Paths, LastOr, WellFormed;
    if left == 0 {
      return false, found, total, left;
    }
    left := left - 1;
    if f.repeated {
      return true, found, total, left;
    }
    if f.shape.Nested? {
      ok, found, total, left := FindLeafPath(s, f.shape.message, leaf, prefix + f.name + ".", found, total, left, inner);
      return;
    }
    if f.name == leaf {
      found, total := prefix + f.name, total + 1;
    }
    ok := true;
  }

  /** What one more field adds to size, count and last path. */
  lemma VisitIs(s: Schema, d: TypeId, i: nat, leaf: string, prefix: string, out: string, inner: set<TypeId>)
    requires WellFormed(s) && d < |s| && i < |s[d]| && SizeUpTo(s, d, i, inner).Some?
    ensures FieldOk(s, s[d][i])
    ensures var f := s[d][i];
            var n, next := SizeUpTo(s, d, i, inner).value, SizeUpTo(s, d, i + 1, inner);
            var before, after := PathsUpTo(s, d, i, leaf, inner), PathsUpTo(s, d, i + 1, leaf, inner);
            var last, now := LastOr(prefix, before, out), LastOr(prefix, after, out);
            if f.repeated || f.shape.Scalar? then
              next == Some(n + 1)
              && (if !f.repeated && f.name == leaf then |after| == |before| + 1 && now == prefix + f.name
                  else |after| == |before| && now == last)
            else
              var below := Size(s, f.shape.message, inner);
              && (next.Some? <==> below.Some?)
              && (next.Some? ==>
                    && next.value == n + 1 + below.value
                    && |after| == |before| + |Paths(s, f.shape.message, leaf, inner)|
                    && now == LastOr(prefix + f.name + ".", Paths(s, f.shape.message, leaf, inner), last))
  {
    var f := s[d][i];
    OneMore(s, d, i, leaf, inner);
    if !f.repeated && f.shape.Nested? && Size(s, f.shape.message, inner).Some? {
      LastBelow(s, prefix, f, leaf, inner, PathsUpTo(s, d, i, leaf, inner), out);
    }
    hide Size, Paths, WellFormed, SizeUpTo, PathsUpTo;
  }

  lemma OneMore(s: Schema, d: TypeId, i: nat, leaf: string, inner: set<TypeId>)
    requires WellFormed(s) && d < |s| && i < |s[d]| && SizeUpTo(s, d, i, inner).Some?
    ensures FieldOk(s, s[d][i])
    ensures PathsUpTo(s, d, i + 1, leaf, inner) == PathsUpTo(s, d, i, leaf, inner) + Through(s, s[d][i], leaf, inner)
    ensures var f := s[d][i];
            SizeUpTo(s, d, i + 1, inner)
            == if f.repeated || f.shape.Scalar? then Some(SizeUpTo(s, d, i, inner).value + 1)
               else if Size(s, f.shape.message, inner).None? then None
               else Some(SizeUpTo(s, d, i, inner).value + 1 + Size(s, f.shape.message, inner).value)
  {
    assert FieldsOk(s, s[d]);
    hide Size, Paths, WellFormed;
  }

  lemma JoinMore(name: string, parts: seq<string>)
    requires parts != []
    ensures Join([name] + parts) == name + "." + Join(parts)
  {
    assert ([name] + parts)[1..] == parts;
  }

  lemma LastOfBelow(prefix: string, name: string, paths: seq<seq<string>>, before: seq<seq<string>>, out: string)
    requires paths != [] ==> paths[|paths| - 1] != []
    ensures LastOr(prefix + name + ".", paths, LastOr(prefix, before, out)) == LastOr(prefix, before + Below(name, paths), out)
  {
    var all := before + Below(name, paths);
    if paths == [] {
      assert all == before;
    } else {
      var last := paths[|paths| - 1];
      assert all[|all| - 1] == [name] + last;
      JoinMore(name, last);
      Regroup(prefix, name, Join(last));
    }
  }

  lemma LastBelow(s: Schema, prefix: string, f: Field, leaf: string, inner: set<TypeId>, before: seq<seq<string>>, out: string)
    requires WellFormed(s) && FieldOk(s, f) && f.shape.Nested? && Size(s, f.shape.message, inner).Some?
    ensures var paths := Paths(s, f.shape.message, leaf, inner);
            LastOr(prefix + f.name + ".", paths, LastOr(prefix, before, out)) == LastOr(prefix, before + Below(f.name, paths), out)
  {
    hide Paths, Size, WellFormed, LastOr, Leads;
    var paths := Paths(s, f.shape.message, leaf, inner);
    if paths != [] {
      assert paths[|paths| - 1] in paths;
      PathsAre(s, f.shape.message, leaf, inner, paths[|paths| - 1]);
    }
    LastOfBelow(prefix, f.name, paths, before, out);
  }

  // ---- resolving ----

  /** One component of a dotted path. */
  lemma WalkStep(s: Schema, d: TypeId, path: string, begin: nat, depth: nat)
    requires WellFormed(s) && d < |s| && begin <= |path|
    ensures var end := Dot(path, begin);
            var part := path[begin..end];
            var field := Lookup(s[d], part);
            && (field.Some? && field.value.shape.Nested? ==> field.value.shape.message < |s|)
            && Walk(s, d, Split(path, begin), depth, path)
               == if depth >= MaxDepth || part == "" then Bad
                  else if field.None? then Absent
                  else if field.value.repeated then Bad
                  else if end == |path| then (if field.value.shape.Nested? then Bad else Path(path))
                  else if field.value.shape.Scalar? then Absent
                  else Walk(s, field.value.shape.message, Split(path, end + 1), depth + 1, path)
  {
    var end := Dot(path, begin);
    var part := path[begin..end];
    if Lookup(s[d], part).Some? {
      LookupOk(s, d, part);
    }
    hide WellFormed, Lookup, Dot;
    if end == |path| {
      assert path[begin..] == part;
    } else {
      assert Split(path, begin)[1..] == Split(path, end + 1);
    }
  }

  /** Follows a dotted path component by component. */
  method FollowPath(s: Schema, d: TypeId, path: string) returns (r: Canonical)
    requires WellFormed(s) && d < |s|
    ensures r == Walk(s, d, Split(path, 0), 0, path)
  {
    hide WellFormed, Lookup, Walk, Split;
    var message: TypeId, begin: nat, depth: nat := d, 0, 0;
    while true
      invariant begin <= |path| && message < |s|
      invariant Walk(s, message, Split(path, begin), depth, path) == Walk(s, d, Split(path, 0), 0, path)
      decreases |path| - begin
    {
      WalkStep(s, message, path, begin, depth);
      depth := depth + 1;
      if depth > MaxDepth {
        return Bad;
      }
      var end := Dot(path, begin);
      var part := path[begin..end];
      if part == "" {
        return Bad;
      }
      var field := Lookup(s[message], part);
      if field.None? {
        return Absent;
      }
      if field.value.repeated {
        return Bad;
      }
      if end == |path| {
        return if field.value.shape.Nested? then Bad else Path(path);
      }
      if field.value.shape.Scalar? {
        return Absent;
      }
      message, begin := field.value.shape.message, end + 1;
    }
  }

  /** Resolves an argument name. */
  method CanonicalPath(s: Schema, d: TypeId, path: string) returns (r: Canonical)
    requires WellFormed(s) && d < |s|
    ensures r == Canon(s, d, path)
  {
    hide WellFormed, Lookup, Size, Paths, Walk, Split;
    if path == "" || |path| > MaxPath {
      return Bad;
    }
    if '.' in path {
      r := FollowPath(s, d, path);
      return;
    }
    var field := Lookup(s[d], path);
    if field.Some? {
      return if field.value.shape.Nested? || field.value.repeated then Bad else Path(path);
    }
    var ok, found, count, left := FindLeafPath(s, d, path, "", "", 0, MaxFields, {});
    if !ok || count > 1 {
      return Bad;
    }
    if count == 1 {
      assert Paths(s, d, path, {})[0] in Paths(s, d, path, {});
      PathsAre(s, d, path, {}, Paths(s, d, path, {})[0]);
      assert "" + Join(Paths(s, d, path, {})[0]) == Join(Paths(s, d, path, {})[0]);
      return Path(found);
    }
    r := Absent;
  }
}
