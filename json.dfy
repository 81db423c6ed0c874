/**
 * The front-matter values the index builder reads, as JavaScript sees them
 * once the front-matter parser has turned YAML into plain objects.
 */
module Json {
  import opened Wrappers

  /** A JavaScript value that front-matter parsing can produce. */
  datatype Json =
    | Null
    | Bool(b: bool)
    | Num(n: real)          // a finite number; -0 and 0 are the same value here
    | NaN                   // the one number that is falsy without being 0
    | Str(s: string)
    | Arr(elems: seq<Json>)
    | Obj(members: map<string, Json>)

  /** The parsed front-matter of one file: the `data` object, key by key. */
  type Metadata = map<string, Json>

  /** JavaScript's ToBoolean: `null`, `false`, `0`, `NaN` and `""` are falsy, everything else is truthy. */
  predicate Truthy(v: Json) {
    match v
    case Null => false
    case Bool(b) => b
    case Num(n) => n != 0.0
    case NaN => false
    case Str(s) => s != ""
    case Arr(_) => true
    case Obj(_) => true
  }

  /** Property access `meta.key`; a missing key reads as `undefined`. */
  function Lookup(meta: Metadata, key: string): Option<Json>
  {
    if key in meta then Some(meta[key]) else None
  }

  /** The key is present and holds a truthy value. */
  predicate TruthyAt(meta: Metadata, key: string) {
    key in meta && Truthy(meta[key])
  }

  /**
   * JavaScript's `a || b`, where `a` may be `undefined` (which is falsy).
   * The result is one of the operands, and it is truthy exactly when one of them is.
   */
  function Or(a: Option<Json>, b: Json): (r: Json)
    ensures a.Some? && Truthy(a.value) ==> r == a.value
    ensures !(a.Some? && Truthy(a.value)) ==> r == b
    ensures Truthy(r) <==> (a.Some? && Truthy(a.value)) || Truthy(b)
  {
    match a
    case Some(v) => if Truthy(v) then v else b
    case None => b
  }
}
