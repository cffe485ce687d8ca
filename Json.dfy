/** Decoded JSON values as the integration sees them after `json.loads`, together
    with the few pieces of Python semantics the entities rely on: truth values,
    `dict.get` with and without a default, and `float(x)`. */
module Json {

  datatype Option<T> = None | Some(value: T)

  /** The result of a Python call that either returns a value or raises. */
  datatype Outcome<T> = Returns(value: T) | Raises

  datatype Json =
    | Null
    | Bool(b: bool)
    | Num(n: real)
    | Str(s: string)
    | Arr(items: seq<Json>)
    | Obj(fields: map<string, Json>)

  /** Python's truth value of a decoded JSON value (`bool(x)`). */
  predicate Truthy(j: Json)
  {
    match j
    case Null => false
    case Bool(b) => b
    case Num(n) => n != 0.0
    case Str(s) => s != ""
    case Arr(items) => items != []
    case Obj(fields) => fields != map[]
  }

  /** `d.get(key)`: the value under `key`, or None when the key is absent. */
  function Get(fields: map<string, Json>, key: string): Json
  {
    if key in fields then fields[key] else Null
  }

  /** `d.get(key, default)`: a key that is present wins even when it holds null. */
  function GetOr(fields: map<string, Json>, key: string, default: Json): Json
  {
    if key in fields then fields[key] else default
  }

  /** Python's `float(x)` on a decoded JSON value. Strings go through the
      interpreter's own float parser, given here as `parseFloat`; None, lists
      and dicts raise TypeError and an unparsable string raises ValueError. */
  function PyFloat(j: Json, parseFloat: string -> Option<real>): (r: Outcome<real>)
    ensures j.Num? ==> r == Returns(j.n)
    ensures j.Bool? ==> r == Returns(if j.b then 1.0 else 0.0)
    ensures (j.Null? || j.Arr? || j.Obj?) ==> r == Raises
  {
    match j
    case Num(n) => Returns(n)
    case Bool(b) => Returns(if b then 1.0 else 0.0)
    case Str(s) => if parseFloat(s).Some? then Returns(parseFloat(s).value) else Raises
    case _ => Raises
  }

  /** Only the empty container, zero, the empty string, false and null are falsy. */
  lemma {:induction false} FalsyValues(j: Json)
    ensures !Truthy(j) <==> j in {Null, Bool(false), Num(0.0), Str(""), Arr([]), Obj(map[])}
  {
    match j
    case Null =>
    case Bool(b) =>
    case Num(n) =>
    case Str(s) =>
    case Arr(items) =>
    case Obj(fields) =>
  }

  // Dotted-path lookup

  /** `value = data; for part in parts: value = value[part]`, None when a key is
      missing (KeyError) or an intermediate value is not a dict (TypeError). */
  function LookupPath(j: Json, path: seq<string>): (r: Option<Json>)
    ensures path == [] ==> r == Some(j)
    ensures path != [] && r.Some? ==> j.Obj? && path[0] in j.fields
  {
    if path == [] then Some(j)
    else if j.Obj? && path[0] in j.fields then LookupPath(j.fields[path[0]], path[1..])
    else None
  }

  /** Looking up `p + q` is looking up `p`, then `q` from there. */
  lemma {:induction false} LookupPathAppend(j: Json, p: seq<string>, q: seq<string>)
    ensures LookupPath(j, p + q) == if LookupPath(j, p).Some? then LookupPath(LookupPath(j, p).value, q) else None
  {
    if p == [] {
      assert p + q == q;
    } else {
      assert (p + q)[0] == p[0];
      if j.Obj? && p[0] in j.fields {
        LookupPathAppend(j.fields[p[0]], p[1..], q);
        assert (p + q)[1..] == p[1..] + q;
      }
    }
  }

  /** A two-step path: `j[a][b]` when both steps find a dict key. */
  lemma LookupPathTwo(j: Json, a: string, b: string)
    ensures LookupPath(j, [a, b])
         == if j.Obj? && a in j.fields && j.fields[a].Obj? && b in j.fields[a].fields
            then Some(j.fields[a].fields[b]) else None
  {
    assert [a, b][1..] == [b];
    assert [b][1..] == [];
    if j.Obj? && a in j.fields {
      var x := j.fields[a];
      assert LookupPath(j, [a, b]) == LookupPath(x, [b]);
      if x.Obj? && b in x.fields {
        assert LookupPath(x, [b]) == LookupPath(x.fields[b], []);
      }
    }
  }

  /** Nesting a value under a dotted path and looking that path up again finds it. */
  function Nest(path: seq<string>, leaf: Json): Json
  {
    if path == [] then leaf else Obj(map[path[0] := Nest(path[1..], leaf)])
  }

  lemma {:induction false} LookupNest(path: seq<string>, leaf: Json)
    ensures LookupPath(Nest(path, leaf), path) == Some(leaf)
  {
    if path != [] {
      LookupNest(path[1..], leaf);
    }
  }
}
