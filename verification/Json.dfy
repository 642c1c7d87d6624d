// JSON values as the Python programs compare them.
module Json {

  datatype Json =
    | Null
    | Bool(b: bool)
    | Num(n: int)
    | Str(s: string)
    | Arr(items: seq<Json>)
    | Obj(fields: map<string, Json>)

  /** `value.get(key)` on an object: a missing field reads as null. */
  function Get(value: Json, key: string): Json {
    if value.Obj? && key in value.fields then value.fields[key] else Null
  }

  /** Python's `==` takes True for 1 and False for 0, at any depth. */
  function Canonical(j: Json): Json {
    match j
    case Bool(b) => Num(if b then 1 else 0)
    case Arr(items) => Arr(seq(|items|, i requires 0 <= i < |items| => Canonical(items[i])))
    case Obj(fields) => Obj(map k | k in fields :: Canonical(fields[k]))
    case _ => j
  }

  predicate Same(a: Json, b: Json) {
    Canonical(a) == Canonical(b)
  }

  /** Lists and objects cannot be dictionary keys or set members. */
  predicate Hashable(j: Json) {
    !j.Arr? && !j.Obj?
  }

  predicate NonEmptyText(j: Json) {
    j.Str? && j.s != ""
  }

  lemma SameText(a: Json, s: string)
    ensures Same(a, Str(s)) <==> a == Str(s)
    ensures Same(Str(s), a) <==> a == Str(s)
  {
  }
}
