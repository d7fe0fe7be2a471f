/** Request schemas, possibly recursive, and the leaves a bare argument name may stand for. */
module RpcSchema {
  import opened Basics

  const MaxDepth := 32
  const MaxFields := 4096

  type TypeId = nat

  datatype Shape = Scalar | Nested(message: TypeId)

  datatype Field = Field(name: string, repeated: bool, shape: Shape)

  /** The fields of every message type. */
  type Schema = seq<seq<Field>>

  /** What descriptors guarantee: field names are distinct identifiers, and message types exist. */
  predicate WellFormed(s: Schema) {
    forall d | 0 <= d < |s| :: FieldsOk(s, s[d])
  }

  predicate FieldsOk(s: Schema, fields: seq<Field>) {
    && (forall i | 0 <= i < |fields| :: FieldOk(s, fields[i]))
    && (forall i, j | 0 <= i < j < |fields| :: fields[i].name != fields[j].name)
  }

  predicate FieldOk(s: Schema, f: Field) {
    f.name != "" && '.' !in f.name && (f.shape.Nested? ==> f.shape.message < |s|)
  }

  // ---- the searched tree ----

  /** The number of fields in the tree below a type, unless it is recursive or too deep. */
  ghost function Size(s: Schema, d: TypeId, ancestors: set<TypeId>): Option<nat>
    requires WellFormed(s) && d < |s|
    decreases MaxDepth - |ancestors|, 0
  {
    if |ancestors| >= MaxDepth || d in ancestors then None else SizeUpTo(s, d, |s[d]|, ancestors + {d})
  }

  ghost function SizeUpTo(s: Schema, d: TypeId, n: nat, ancestors: set<TypeId>): Option<nat>
    requires WellFormed(s) && d < |s| && n <= |s[d]|
    decreases MaxDepth - |ancestors|, n + 1
  {
    if n == 0 then Some(0)
    else
      match SizeUpTo(s, d, n - 1, ancestors)
      case None => None
      case Some(before) =>
        var f := s[d][n - 1];
        assert FieldsOk(s, s[d]) && FieldOk(s, f);
        if f.repeated || f.shape.Scalar? then Some(before + 1)
        else
          match Size(s, f.shape.message, ancestors)
          case None => None
          case Some(below) => Some(before + 1 + below)
  }

  /** The paths, in search order, of the singular leaves with this name. */
  ghost function Paths(s: Schema, d: TypeId, leaf: string, ancestors: set<TypeId>): seq<seq<string>>
    requires WellFormed(s) && d < |s|
    decreases MaxDepth - |ancestors|, 0
  {
    if |ancestors| >= MaxDepth || d in ancestors then [] else PathsUpTo(s, d, |s[d]|, leaf, ancestors + {d})
  }

  ghost function PathsUpTo(s: Schema, d: TypeId, n: nat, leaf: string, ancestors: set<TypeId>): seq<seq<string>>
    requires WellFormed(s) && d < |s| && n <= |s[d]|
    decreases MaxDepth - |ancestors|, n + 1
  {
    if n == 0 then []
    else
      var f := s[d][n - 1];
      assert FieldsOk(s, s[d]) && FieldOk(s, f);
      PathsUpTo(s, d, n - 1, leaf, ancestors)
      + if f.repeated then []
        else if f.shape.Nested? then Below(f.name, Paths(s, f.shape.message, leaf, ancestors))
        else if f.name == leaf then [[f.name]] else []
  }

  function Below(name: string, paths: seq<seq<string>>): seq<seq<string>> {
    seq(|paths|, i requires 0 <= i < |paths| => [name] + paths[i])
  }

  // ---- leaves, independently ----

  /** The field with this name. */
  function Lookup(fields: seq<Field>, name: string): Option<Field> {
    if fields == [] then None
    else if fields[|fields| - 1].name == name then Some(fields[|fields| - 1])
    else Lookup(fields[..|fields| - 1], name)
  }

  lemma {:induction false} LookupIs(fields: seq<Field>, name: string)
    ensures Lookup(fields, name).Some? ==> Lookup(fields, name).value in fields && Lookup(fields, name).value.name == name
    ensures forall i | 0 <= i < |fields| && fields[i].name == name :: Lookup(fields, name).Some?
  {
    if fields != [] {
      LookupIs(fields[..|fields| - 1], name);
      forall i | 0 <= i < |fields| && fields[i].name == name
        ensures Lookup(fields, name).Some?
      {
        if i < |fields| - 1 {
          assert fields[..|fields| - 1][i] == fields[i];
        }
      }
    }
  }

  lemma LookupAt(s: Schema, fields: seq<Field>, i: nat)
    requires FieldsOk(s, fields) && i < |fields|
    ensures Lookup(fields, fields[i].name) == Some(fields[i])
  {
    LookupIs(fields, fields[i].name);
  }

  lemma LookupOk(s: Schema, d: TypeId, name: string)
    requires WellFormed(s) && d < |s| && Lookup(s[d], name).Some?
    ensures Lookup(s[d], name).value in s[d] && FieldOk(s, Lookup(s[d], name).value) && Lookup(s[d], name).value.name == name
  {
    LookupIs(s[d], name);
    assert FieldsOk(s, s[d]);
  }

  /** The parts lead through singular messages to a singular scalar. */
  predicate Leads(s: Schema, d: TypeId, parts: seq<string>)
    requires WellFormed(s) && d < |s|
    decreases |parts|
  {
    parts != []
    && match Lookup(s[d], parts[0])
       case None => false
       case Some(f) =>
         !f.repeated
         && if |parts| == 1 then f.shape.Scalar?
            else f.shape.Nested? && (LookupOk(s, d, parts[0]); Leads(s, f.shape.message, parts[1..]))
  }
}
