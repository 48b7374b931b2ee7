/** Configuration documents.

    Task configurations are nested string-keyed dictionaries stored in a JSON
    column. This module gives them a value type, the Python subscript and
    subscript-assignment operations on key paths, Python truthiness, and the
    recursive dictionary merge with override precedence that every
    configuration update goes through.
 */
module Json {
  import opened Wrappers

  /** A JSON document. `Null` is Python's None. Lists never occur in the
      configurations this model handles. */
  datatype Json =
    | Obj(fields: map<string, Json>)
    | Str(s: string)
    | Int(i: int)
    | Real(r: real)
    | Bool(b: bool)
    | Null

  const Empty: Json := Obj(map[])

  /** Python's `bool(v)`. */
  predicate Truthy(j: Json)
  {
    match j
    case Obj(m) => m != map[]
    case Str(s) => s != ""
    case Int(i) => i != 0
    case Real(r) => r != 0.0
    case Bool(b) => b
    case Null => false
  }

  /** Python's name for the type of a non-dictionary value. */
  function TypeName(j: Json): string
  {
    match j
    case Obj(_) => "dict"
    case Str(_) => "str"
    case Int(_) => "int"
    case Real(_) => "float"
    case Bool(_) => "bool"
    case Null => "NoneType"
  }

  /** The text of the TypeError raised by `j[key]` for a string key on a
      value that is not a dictionary. */
  function NotSubscriptable(j: Json): string
  {
    if j.Str? then "string indices must be integers" else "'" + TypeName(j) + "' object is not subscriptable"
  }

  /** `j[path[0]][path[1]]...`: a KeyError at the first missing key, a
      TypeError at the first value that is not a dictionary. */
  function Get(j: Json, path: seq<string>): (r: Result<Json>)
    ensures path == [] ==> r == Ok(j)
    ensures r.Err? ==> path != [] && (r.error.KeyError? || r.error.TypeError?)
    decreases |path|
  {
    if path == [] then Ok(j)
    else if !j.Obj? then Err(TypeError(NotSubscriptable(j)))
    else if path[0] !in j.fields then Err(KeyError(path[0]))
    else Get(j.fields[path[0]], path[1..])
  }

  /** Looking up a path in two parts: the rest of the path is looked up in
      what the first part finds; a failure in the first part is the failure
      of the whole lookup. */
  lemma {:induction false} GetConcat(j: Json, p: seq<string>, q: seq<string>)
    ensures Get(j, p + q) == (if Get(j, p).Ok? then Get(Get(j, p).value, q) else Get(j, p))
    decreases |p|
  {
    if p == [] {
      assert p + q == q;
    } else {
      assert (p + q)[0] == p[0] && (p + q)[1..] == p[1..] + q;
      if j.Obj? && p[0] in j.fields {
        GetConcat(j.fields[p[0]], p[1..], q);
      }
    }
  }

  /** `j.get(key, default)` where `j` must be a dictionary. */
  function GetOr(j: Json, key: string, default: Json): (r: Result<Json>)
    ensures r.Ok? <==> j.Obj?
    ensures j.Obj? && key !in j.fields ==> r == Ok(default)
    ensures j.Obj? && key in j.fields ==> r == Get(j, [key])
  {
    if !j.Obj? then Err(AttributeError("'" + TypeName(j) + "' object has no attribute 'get'"))
    else if key in j.fields then Ok(j.fields[key])
    else Ok(default)
  }

  /** `j[path[0]]...[path[n-2]][path[n-1]] = v`, an in-place assignment:
      every prefix but the last key is looked up as by `Get`, and the last
      dictionary reached gains or replaces the key `path[n-1]`. */
  function Set(j: Json, path: seq<string>, v: Json): Result<Json>
    requires path != []
    decreases |path|
  {
    if !j.Obj? then Err(TypeError("'" + TypeName(j) + "' object does not support item assignment"))
    else if |path| == 1 then Ok(Obj(j.fields[path[0] := v]))
    else if path[0] !in j.fields then Err(KeyError(path[0]))
    else
      match Set(j.fields[path[0]], path[1..], v)
      case Ok(c) => Ok(Obj(j.fields[path[0] := c]))
      case Err(e) => Err(e)
  }

  /** The assignment succeeds exactly when the parent path leads to a dictionary. */
  lemma {:induction false} SetSucceeds(j: Json, path: seq<string>, v: Json)
    requires path != []
    ensures Set(j, path, v).Ok? <==> (Get(j, path[..|path| - 1]).Ok? && Get(j, path[..|path| - 1]).value.Obj?)
    decreases |path|
  {
    if j.Obj? && |path| > 1 && path[0] in j.fields {
      SetSucceeds(j.fields[path[0]], path[1..], v);
      assert path[1..][..|path[1..]| - 1] == path[..|path| - 1][1..];
    }
  }

  /** After the assignment, reading the same path gives the assigned value. */
  lemma {:induction false} GetAfterSet(j: Json, path: seq<string>, v: Json)
    requires path != [] && Set(j, path, v).Ok?
    ensures Get(Set(j, path, v).value, path) == Ok(v)
    decreases |path|
  {
    if |path| > 1 {
      GetAfterSet(j.fields[path[0]], path[1..], v);
    }
  }

  /** Neither path is a prefix of the other: they lead to unrelated places. */
  predicate Diverge(p: seq<string>, q: seq<string>)
  {
    exists i :: 0 <= i < |p| && i < |q| && p[i] != q[i]
  }

  /** After the assignment, every path that diverges from the assigned one
      reads exactly as before. */
  lemma {:induction false} GetAfterSetElsewhere(j: Json, path: seq<string>, v: Json, q: seq<string>)
    requires path != [] && Set(j, path, v).Ok? && Diverge(path, q)
    ensures Get(Set(j, path, v).value, q) == Get(j, q)
    decreases |path|
  {
    var i :| 0 <= i < |path| && i < |q| && path[i] != q[i];
    if path[0] != q[0] {
    } else {
      assert i > 0;
      assert |path| > 1;
      assert path[1..][i - 1] != q[1..][i - 1];
      GetAfterSetElsewhere(j.fields[path[0]], path[1..], v, q[1..]);
    }
  }

  /** Deep merge with override precedence: where both sides hold a
      dictionary the two are merged key by key; everywhere else the override
      value replaces the base value wholesale. Keys present only in the base
      are kept; keys present only in the override are added. */
  function Merge(base: Json, over: Json): (r: Json)
    ensures over.Obj? ==> r.Obj?
    ensures !(base.Obj? && over.Obj?) ==> r == over
    ensures base.Obj? && over.Obj? ==> r.fields.Keys == base.fields.Keys + over.fields.Keys
  {
    if base.Obj? && over.Obj? then
      Obj(map k | k in base.fields.Keys + over.fields.Keys ::
        if k in over.fields then
          (if k in base.fields then Merge(base.fields[k], over.fields[k]) else over.fields[k])
        else base.fields[k])
    else over
  }

  /** Merging in an empty dictionary leaves a dictionary unchanged. */
  lemma MergeEmptyOverride(a: Json)
    requires a.Obj?
    ensures Merge(a, Empty) == a
  {
    assert Merge(a, Empty).fields == a.fields;
  }

  /** Merging anything into an empty dictionary gives the override itself. */
  lemma MergeIntoEmpty(b: Json)
    ensures Merge(Empty, b) == b
  {
    if b.Obj? {
      assert Merge(Empty, b).fields == b.fields;
    }
  }

  /** Merging a configuration with itself changes nothing. */
  lemma {:induction false} MergeIdempotent(a: Json)
    ensures Merge(a, a) == a
  {
    if a.Obj? {
      forall k | k in a.fields
        ensures Merge(a.fields[k], a.fields[k]) == a.fields[k]
      {
        MergeIdempotent(a.fields[k]);
      }
      assert Merge(a, a).fields == a.fields;
    }
  }

  /** Applying the same override a second time changes nothing. */
  lemma {:induction false} MergeOverrideTwice(a: Json, b: Json)
    ensures Merge(Merge(a, b), b) == Merge(a, b)
  {
    if a.Obj? && b.Obj? {
      var c := Merge(a, b);
      forall k | k in b.fields
        ensures Merge(c.fields[k], b.fields[k]) == c.fields[k]
      {
        if k in a.fields {
          MergeOverrideTwice(a.fields[k], b.fields[k]);
        } else {
          MergeIdempotent(b.fields[k]);
        }
      }
      assert Merge(c, b).fields == c.fields;
    } else {
      MergeIdempotent(b);
    }
  }

  /** A value the override holds that is not itself a dictionary is what the
      merged configuration holds at that path: override leaves win. */
  lemma {:induction false} MergeKeepsOverrideLeaf(base: Json, over: Json, path: seq<string>, v: Json)
    requires Get(over, path) == Ok(v) && !v.Obj?
    ensures Get(Merge(base, over), path) == Ok(v)
    decreases |path|
  {
    if path != [] {
      var k := path[0];
      if base.Obj? && k in base.fields {
        MergeKeepsOverrideLeaf(base.fields[k], over.fields[k], path[1..], v);
      }
    }
  }

  /** `path` reaches into something the override sets: the override is not a
      dictionary there, or the path stops at a dictionary the override holds,
      or it continues through a key the override holds. */
  predicate Touches(over: Json, path: seq<string>)
    decreases |path|
  {
    !over.Obj? || path == [] || (path[0] in over.fields && Touches(over.fields[path[0]], path[1..]))
  }

  /** The override does not mention the path, so the lookup fails with a KeyError. */
  lemma {:induction false} UntouchedMisses(over: Json, path: seq<string>)
    requires !Touches(over, path)
    ensures Get(over, path).Err? && Get(over, path).error.KeyError?
    decreases |path|
  {
    if path[0] in over.fields {
      UntouchedMisses(over.fields[path[0]], path[1..]);
    }
  }

  /** What a lookup finds, forgetting which exception a failed lookup raises. */
  function Find(j: Json, path: seq<string>): (r: Option<Json>)
    ensures r.Some? <==> Get(j, path).Ok?
    ensures r.Some? ==> r.value == Get(j, path).value
  {
    if Get(j, path).Ok? then Some(Get(j, path).value) else None
  }

  /** Paths the override does not touch find in the merged configuration
      exactly what they find in the base: keys only in the base survive, and
      nothing appears where the base had nothing. */
  lemma {:induction false} MergeKeepsBaseElsewhere(base: Json, over: Json, path: seq<string>)
    requires !Touches(over, path)
    ensures Find(Merge(base, over), path) == Find(base, path)
    decreases |path|
  {
    var k := path[0];
    if !base.Obj? {
      UntouchedMisses(over, path);
    } else if k in over.fields {
      if k in base.fields {
        MergeKeepsBaseElsewhere(base.fields[k], over.fields[k], path[1..]);
      } else {
        UntouchedMisses(over.fields[k], path[1..]);
      }
    }
  }
}
