/** JSON documents as the Python harness sees them after `json.loads`. */
module JsonValues {
  import opened Wrappers

  datatype Json =
    | Null
    | Bool(b: bool)
    | Int(i: int)
    | Num(r: real)
    | Str(s: string)
    | Arr(items: seq<Json>)
    | Obj(fields: map<string, Json>)

  type Object = map<string, Json>

  /** Python's `str(value)`. Only its effect on strings, the identity, is fixed here. */
  type Renderer = f: Json -> string | forall s: string :: f(Str(s)) == s
    witness (v: Json) => if v.Str? then v.s else ""

  /** The number a value compares as: booleans are 0 and 1. */
  function Numeric(v: Json): Option<real> {
    match v
    case Bool(b) => Some(if b then 1.0 else 0.0)
    case Int(i) => Some(i as real)
    case Num(r) => Some(r)
    case _ => None
  }

  /** Python's `==` on JSON values: numeric across bool, int and float. */
  predicate PyEq(a: Json, b: Json) {
    if Numeric(a).Some? || Numeric(b).Some? then Numeric(a) == Numeric(b)
    else match (a, b)
      case (Null, Null) => true
      case (Str(s), Str(t)) => s == t
      case (Arr(xs), Arr(ys)) =>
        |xs| == |ys| && forall i | 0 <= i < |xs| :: PyEq(xs[i], ys[i])
      case (Obj(f), Obj(g)) =>
        f.Keys == g.Keys && forall k | k in f :: PyEq(f[k], g[k])
      case _ => false
  }

  predicate IsNumber(v: Json) {
    v.Int? || v.Num?
  }

  /** The type label recorded for one observed value. */
  function TypeLabel(v: Json): string {
    match v
    case Null => "null"
    case Bool(_) => "boolean"
    case Int(_) => "integer"
    case Num(_) => "number"
    case Str(_) => "string"
    case Arr(_) => "array"
    case Obj(_) => "object"
  }
}
